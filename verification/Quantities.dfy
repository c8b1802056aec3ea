/** Resource quantities of a cluster or a request, in thousandths of the unit; a missing entry is zero. */
module Quantities {
  type Resources = map<string, int>

  function Quantity(r: Resources, name: string): int {
    if name in r then r[name] else 0
  }
}
