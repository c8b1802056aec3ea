/**
  Selector and pod labels of the workload the application controller applies to a
  cluster: built from the specification, replaced by the live selector, and made to
  agree with the pod template.
*/
module WorkloadSelector {
  import opened Prelude

  type Labels = map<string, string>

  const APPLICATION_ID := "kumquat.io/application-id"
  const WORKSPACE_ID := "kumquat.io/workspace-id"
  const MODULE_ID := "kumquat.io/module-id"
  const PROJECT_ID := "kumquat.io/project-id"
  const MANAGED_BY := "app.kubernetes.io/managed-by"
  const MANAGED_BY_VALUE := "kumquat"

  datatype Kind = Deployment | StatefulSet | DaemonSet | ReplicaSet | Job | CronJob | OtherKind

  datatype Operator = In | NotIn | Exists | DoesNotExist | OtherOperator

  datatype Expression = Expression(key: string, operator: Operator, values: seq<string>)

  /** A selector object; an absent part is `None`, an object without parts is empty. */
  datatype Selector = Selector(matchLabels: Option<Labels>, matchExpressions: Option<seq<Expression>>)

  datatype ServiceError = SelectorChanged | IdentityMissing | MutableLabelInSelector | ExpressionUnsupported

  /** The workload under construction. */
  datatype State = State(kind: Kind, labels: Option<Labels>, selector: Option<Selector>)

  predicate NeedsSelector(k: Kind) {
    k in {Deployment, StatefulSet, DaemonSet, ReplicaSet}
  }

  predicate Present(s: Option<Selector>) {
    s.Some? && (s.value.matchLabels.Some? || s.value.matchExpressions.Some?)
  }

  function MatchLabelsOf(s: Selector): Labels {
    if s.matchLabels.Some? then s.matchLabels.value else map[]
  }

  function ExpressionsOf(s: Selector): seq<Expression> {
    if s.matchExpressions.Some? then s.matchExpressions.value else []
  }

  predicate ExpressionMatches(e: Expression, labels: Labels) {
    var known := e.key in labels;
    match e.operator
    case In => known && labels[e.key] in e.values
    case NotIn => !known || labels[e.key] !in e.values
    case Exists => known
    case DoesNotExist => !known
    case OtherOperator => false
  }

  /** Kubernetes' meaning of a selector: every label and every expression holds. */
  predicate Selects(s: Selector, labels: Labels) {
    && (forall k :: k in MatchLabelsOf(s) ==> k in labels && labels[k] == MatchLabelsOf(s)[k])
    && (forall i :: 0 <= i < |ExpressionsOf(s)| ==> ExpressionMatches(ExpressionsOf(s)[i], labels))
  }

  /** The stable labels among these, those that are not empty. */
  function StableLabels(labels: Labels): Labels {
    map k | k in labels && k in {APPLICATION_ID, WORKSPACE_ID, MANAGED_BY} && labels[k] != "" :: labels[k]
  }

  /** The pod identity of an application: none at all unless both IDs are set. */
  function Identity(application: string, workspace: string): Labels {
    if application == "" || workspace == "" then map[]
    else map[APPLICATION_ID := application, WORKSPACE_ID := workspace, MANAGED_BY := MANAGED_BY_VALUE]
  }

  // ---------------------------------------------------------- the three steps

  /** A selector without any label or expression. */
  predicate Bare(s: Selector) {
    MatchLabelsOf(s) == map[] && ExpressionsOf(s) == []
  }

  /** The object a selector of the specification is converted to: empty parts are left out. */
  function Converted(s: Selector): Selector {
    Selector(if MatchLabelsOf(s) == map[] then None else s.matchLabels, if ExpressionsOf(s) == [] then None else s.matchExpressions)
  }

  /** The selector the specification asks for, or the one the template's stable labels give. */
  function Configured(kind: Kind, template: Option<Labels>, spec: Option<Selector>): State {
    var fromTemplate :=
      if template.Some? && NeedsSelector(kind) && StableLabels(template.value) != map[]
      then Some(Selector(Some(StableLabels(template.value)), None)) else None;
    State(kind, template, if spec.Some? && kind != Job && kind != CronJob then Some(Converted(spec.value)) else fromTemplate)
  }

  /** The live selector wins; an explicit selector that differs from it is refused. */
  function Preserved(s: State, live: Option<Selector>, explicit: bool): Result<State, ServiceError> {
    if !Present(live) then Success(s)
    else if explicit && s.selector != live then Failure(SelectorChanged)
    else Success(s.(selector := live))
  }

  function WithoutOwnership(labels: Labels): Labels {
    labels - {MODULE_ID, PROJECT_ID}
  }

  function Identified(s: State, identity: Labels): Result<State, ServiceError> {
    if APPLICATION_ID !in identity || identity[APPLICATION_ID] == "" || WORKSPACE_ID !in identity || identity[WORKSPACE_ID] == "" then Failure(IdentityMissing)
    else
      var pod := WithoutOwnership(if s.labels.Some? then s.labels.value else map[]) + identity;
      if !NeedsSelector(s.kind) then Success(s.(labels := Some(pod)))
      else if !Present(s.selector) then Success(s.(labels := Some(pod), selector := Some(Selector(Some(StableLabels(identity)), None))))
      else
        var wantedLabels := MatchLabelsOf(s.selector.value);
        if MODULE_ID in wantedLabels || PROJECT_ID in wantedLabels then Failure(MutableLabelInSelector)
        else if exists i :: 0 <= i < |ExpressionsOf(s.selector.value)| && !ExpressionMatches(ExpressionsOf(s.selector.value)[i], pod + wantedLabels)
        then Failure(ExpressionUnsupported)
        else Success(s.(labels := Some(pod + wantedLabels)))
  }

  /** One reconciliation: configure, preserve the live selector, fix the pod identity. */
  function Reconciled(kind: Kind, template: Option<Labels>, spec: Option<Selector>, live: Option<Selector>, identity: Labels): Result<State, ServiceError> {
    match Preserved(Configured(kind, template, spec), live, spec.Some?)
    case Failure(e) => Failure(e)
    case Success(s) => Identified(s, identity)
  }

  // ------------------------------------------- labels and selectors, one by one

  /** The labels that never change while an application exists. */
  predicate IsStable(k: string) {
    k == "kumquat.io/application-id" || k == "kumquat.io/workspace-id" || k == "app.kubernetes.io/managed-by"
  }

  /** The labels that move with ownership. */
  predicate IsMutable(k: string) {
    k == "kumquat.io/module-id" || k == "kumquat.io/project-id"
  }

  predicate Carries(labels: Labels, k: string) {
    k in labels && labels[k] != ""
  }

  /** The label is there with this value, or it is absent. */
  predicate HasLabel(labels: Labels, k: string, value: Option<string>) {
    if k in labels then value == Some(labels[k]) else value.None?
  }

  /** The selector of the specification, part by part; an empty part is absent. */
  predicate AsSpecified(s: Selector, spec: Selector) {
    && (s.matchLabels.Some? <==> spec.matchLabels.Some? && spec.matchLabels.value != map[])
    && (s.matchLabels.Some? ==> s.matchLabels == spec.matchLabels)
    && (s.matchExpressions.Some? <==> spec.matchExpressions.Some? && spec.matchExpressions.value != [])
    && (s.matchExpressions.Some? ==> s.matchExpressions == spec.matchExpressions)
  }

  /** A selector by exactly the stable labels that are set. */
  ghost predicate FromStableLabels(s: Selector, labels: Labels) {
    && s.matchExpressions.None? && s.matchLabels.Some?
    && forall k :: HasLabel(s.matchLabels.value, k, if IsStable(k) && Carries(labels, k) then Some(labels[k]) else None)
  }

  /** A pod label: the selector's if it asks for one, else the identity's, else the template's unless it moves with ownership. */
  function PodLabel(template: Option<Labels>, selector: Option<Selector>, identity: Labels, kind: Kind, k: string): Option<string> {
    if kind in {Deployment, StatefulSet, DaemonSet, ReplicaSet} && selector.Some? && selector.value.matchLabels.Some? && k in selector.value.matchLabels.value
    then Some(selector.value.matchLabels.value[k])
    else if k in identity then Some(identity[k])
    else if template.Some? && k in template.value && !IsMutable(k) then Some(template.value[k])
    else None
  }

  lemma StableLabelsAreThose(labels: Labels)
    ensures StableLabels(labels) != map[] <==> exists k :: IsStable(k) && Carries(labels, k)
    ensures FromStableLabels(Selector(Some(StableLabels(labels)), None), labels)
  {
    assert forall k :: k in StableLabels(labels) <==> IsStable(k) && Carries(labels, k);
  }

  /** The selector a workload is configured with. */
  lemma ConfiguredSelector(kind: Kind, template: Option<Labels>, spec: Option<Selector>)
    ensures var s := Configured(kind, template, spec).selector;
            if spec.Some? && kind != Job && kind != CronJob then s.Some? && AsSpecified(s.value, spec.value)
            else
              && (s.Some? <==> kind in {Deployment, StatefulSet, DaemonSet, ReplicaSet} && template.Some? && exists k :: IsStable(k) && Carries(template.value, k))
              && (s.Some? ==> FromStableLabels(s.value, template.value))
  {
    if template.Some? {
      StableLabelsAreThose(template.value);
    }
  }

  // ------------------------------------------------------------- the in-place form

  class Workload {
    const kind: Kind
    var labels: Option<Labels>
    var selector: Option<Selector>

    constructor (kind: Kind)
      ensures Contents() == State(kind, None, None)
    {
      this.kind := kind;
      labels, selector := None, None;
    }

    ghost function Contents(): State
      reads this
    {
      State(kind, labels, selector)
    }

    method ConfigureWorkload(template: Option<Labels>, spec: Option<Selector>)
      requires labels.None? && selector.None?
      modifies this
      ensures Contents() == Configured(kind, template, spec)
      ensures labels == template
      ensures spec.Some? && kind != Job && kind != CronJob ==> selector.Some? && AsSpecified(selector.value, spec.value)
      ensures spec.None? || kind == Job || kind == CronJob ==>
        (selector.Some? <==> kind in {Deployment, StatefulSet, DaemonSet, ReplicaSet} && template.Some? && exists k :: IsStable(k) && Carries(template.value, k))
      ensures (spec.None? || kind == Job || kind == CronJob) && selector.Some? ==> FromStableLabels(selector.value, template.value)
    {
      labels := template;
      if template.Some? {
        var matchLabels: Labels := map[];
        var keys := [APPLICATION_ID, WORKSPACE_ID, MANAGED_BY];
        for i := 0 to 3
          invariant matchLabels == map k | k in template.value && k in keys[..i] && template.value[k] != "" :: template.value[k]
        {
          if keys[i] in template.value && template.value[keys[i]] != "" {
            matchLabels := matchLabels[keys[i] := template.value[keys[i]]];
          }
        }
        assert keys[..3] == keys;
        assert forall k :: k in keys <==> k in {APPLICATION_ID, WORKSPACE_ID, MANAGED_BY};
        assert matchLabels == StableLabels(template.value);
        if matchLabels != map[] && NeedsSelector(kind) {
          selector := Some(Selector(Some(matchLabels), None));
        }
      }
      if kind != Job && kind != CronJob && spec.Some? {
        selector := Some(Converted(spec.value));
      }
      ConfiguredSelector(kind, template, spec);
    }

    method PreserveLiveSelector(live: Option<Selector>, explicit: bool) returns (error: Option<ServiceError>)
      modifies this
      ensures match Preserved(old(Contents()), live, explicit)
              case Success(s) => error.None? && Contents() == s
              case Failure(e) => error == Some(e) && Contents() == old(Contents())
      ensures labels == old(labels)
      ensures var given := live.Some? && (live.value.matchLabels.Some? || live.value.matchExpressions.Some?);
              && (error.Some? <==> given && explicit && old(selector) != live)
              && selector == if given && error.None? then live else old(selector)
    {
      error := None;
      if Present(live) {
        if explicit && selector != live {
          return Some(SelectorChanged);
        }
        selector := live;
      }
    }

    method ConfigureImmutablePodIdentity(identity: Labels) returns (error: Option<ServiceError>)
      modifies this
      ensures match Identified(old(Contents()), identity)
              case Success(s) => error.None? && Contents() == s
              case Failure(e) => error == Some(e)
      ensures error.None? ==>
        && labels.Some? && Carries(identity, "kumquat.io/application-id") && Carries(identity, "kumquat.io/workspace-id")
        && forall k :: HasLabel(labels.value, k, PodLabel(old(labels), old(selector), identity, kind, k))
      ensures error.None? && kind in {Deployment, StatefulSet, DaemonSet, ReplicaSet} ==>
        && selector.Some?
        && (Present(old(selector)) ==> selector == old(selector))
        && (!Present(old(selector)) ==> FromStableLabels(selector.value, identity))
      ensures error.None? && kind !in {Deployment, StatefulSet, DaemonSet, ReplicaSet} ==> selector == old(selector)
    {
      if APPLICATION_ID !in identity || identity[APPLICATION_ID] == "" || WORKSPACE_ID !in identity || identity[WORKSPACE_ID] == "" {
        return Some(IdentityMissing);
      }
      var current := if labels.Some? then labels.value else map[];
      current := current - {MODULE_ID, PROJECT_ID};
      current := current + identity;
      labels := Some(current);
      error := None;
      if NeedsSelector(kind) {
        if Present(selector) {
          var matchLabels := MatchLabelsOf(selector.value);
          if MODULE_ID in matchLabels || PROJECT_ID in matchLabels {
            return Some(MutableLabelInSelector);
          }
          current := current + matchLabels;
          var expressions := ExpressionsOf(selector.value);
          for i := 0 to |expressions|
            modifies {}
            invariant forall j :: 0 <= j < i ==> ExpressionMatches(expressions[j], current)
          {
            var fits := CheckExpression(expressions[i], current);
            if !fits {
              return Some(ExpressionUnsupported);
            }
          }
          labels := Some(current);
        } else {
          selector := Some(Selector(Some(StableLabels(identity)), None));
        }
      }
    }
  }

  /** One expression against the labels, operator by operator. */
  method CheckExpression(e: Expression, labels: Labels) returns (matched: bool)
    ensures matched == ExpressionMatches(e, labels)
    ensures e.operator == In ==> (matched <==> e.key in labels && exists j :: 0 <= j < |e.values| && e.values[j] == labels[e.key])
    ensures e.operator == NotIn ==> (matched <==> e.key !in labels || forall j :: 0 <= j < |e.values| ==> e.values[j] != labels[e.key])
    ensures e.operator == Exists ==> (matched <==> e.key in labels)
    ensures e.operator == DoesNotExist ==> (matched <==> e.key !in labels)
    ensures e.operator == OtherOperator ==> !matched
  {
    var known := e.key in labels;
    var value := if known then labels[e.key] else "";
    var listed := false;
    for i := 0 to |e.values|
      invariant !listed && forall j :: 0 <= j < i ==> e.values[j] != value
    {
      if e.values[i] == value {
        listed := true;
        break;
      }
    }
    assert listed <==> value in e.values;
    match e.operator {
      case In => matched := known && listed;
      case NotIn => matched := !known || !listed;
      case Exists => matched := known;
      case DoesNotExist => matched := !known;
      case OtherOperator => matched := false;
    }
  }

  // ---------------------------------------------------------------------- results

  /**
    When all three steps succeed, the selector selects the pods of the template and equals
    the live selector if there was one; labels that move with ownership are in neither.
  */
  lemma SelectorMatchesTemplate(kind: Kind, template: Option<Labels>, spec: Option<Selector>, live: Option<Selector>, application: string, workspace: string)
    requires NeedsSelector(kind)
    requires Reconciled(kind, template, spec, live, Identity(application, workspace)).Success?
    ensures var s := Reconciled(kind, template, spec, live, Identity(application, workspace)).value;
            && s.labels.Some? && s.selector.Some? && Present(s.selector)
            && Selects(s.selector.value, s.labels.value)
            && (Present(live) ==> s.selector == live)
            && MODULE_ID !in s.labels.value && PROJECT_ID !in s.labels.value
            && MODULE_ID !in MatchLabelsOf(s.selector.value) && PROJECT_ID !in MatchLabelsOf(s.selector.value)
  {
    var identity := Identity(application, workspace);
    var s := Reconciled(kind, template, spec, live, identity).value;
    assert forall k :: k in StableLabels(identity) ==> k in identity && identity[k] == StableLabels(identity)[k];
  }

  /** The steps succeed exactly when the caller's inputs allow it. */
  lemma SucceedsIff(kind: Kind, template: Option<Labels>, spec: Option<Selector>, live: Option<Selector>, application: string, workspace: string)
    requires NeedsSelector(kind)
    ensures var identity := Identity(application, workspace);
            var pod := WithoutOwnership(if template.Some? then template.value else map[]) + identity;
            var wanted := if Present(live) then live else Configured(kind, template, spec).selector;
            Reconciled(kind, template, spec, live, identity).Success? <==>
              && application != "" && workspace != ""
              && (spec.Some? && Present(live) ==> Some(Converted(spec.value)) == live)
              && (Present(wanted) ==>
                    && MODULE_ID !in MatchLabelsOf(wanted.value) && PROJECT_ID !in MatchLabelsOf(wanted.value)
                    && Selects(wanted.value, pod + MatchLabelsOf(wanted.value)))
  {
  }

  /**
    Reconciling again, with the selector just applied as the live one, changes nothing -
    exactly when the specification does not carry an explicit selector whose labels and
    expressions are both absent or empty: that one is filled in by the first round and
    refused as a change by the second.
  */
  lemma SecondRoundIsStableIff(kind: Kind, template: Option<Labels>, spec: Option<Selector>, live: Option<Selector>, application: string, workspace: string)
    requires NeedsSelector(kind)
    requires Reconciled(kind, template, spec, live, Identity(application, workspace)).Success?
    ensures var first := Reconciled(kind, template, spec, live, Identity(application, workspace));
            var second := Reconciled(kind, template, spec, first.value.selector, Identity(application, workspace));
            second == first <==> !(spec.Some? && Bare(spec.value))
  {
    var identity := Identity(application, workspace);
    var first := Reconciled(kind, template, spec, live, identity);
    SelectorMatchesTemplate(kind, template, spec, live, application, workspace);
    var pod := WithoutOwnership(if template.Some? then template.value else map[]) + identity;
    var wantedLabels := MatchLabelsOf(first.value.selector.value);
    assert pod + wantedLabels == first.value.labels.value;
  }
}
