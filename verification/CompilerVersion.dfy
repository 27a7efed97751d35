/** The compiler version precedence chain of one config (`environment/compiler.ts`, `projectCompilerValues`). */
module CompilerVersion {
  import opened Wrappers

  type Failure = nat

  /** A property read: falsy, truthy, or a getter that threw. */
  datatype Reading = Falsy | Truthy(text: Option<nat>) | Threw(failure: Failure)

  datatype Origin = HostDefault | Legacy(flag: nat) | NetworkLevel | Global

  datatype Version = Version(text: nat, origin: Origin)

  const HOST_DEFAULT: nat := 0
  const NOT_A_STRING: Failure := 0

  /** The versions the two legacy flags stand for. */
  function LegacyText(flag: nat): nat { flag + 1 }

  /** `flags` are the two legacy switches, in the order the loop reads them. */
  datatype Network = NoNetworks | Networks(flags: seq<Reading>, version: Reading)

  predicate WellFormed(n: Network) { n.Networks? ==> |n.flags| == 2 }

  /** The chain the host documents: the most specific source that says anything wins, first of all the project's own. */
  function Winner(n: Network, global: Reading): Origin
    requires WellFormed(n)
  {
    if n.NoNetworks? then HostDefault
    else if global.Truthy? then Global
    else if n.version.Truthy? then NetworkLevel
    else if n.flags[0].Truthy? then Legacy(0)
    else if n.flags[1].Truthy? then Legacy(1)
    else HostDefault
  }

  function TextOf(n: Network, global: Reading, o: Origin): Option<nat>
    requires WellFormed(n)
  {
    match o
    case HostDefault => Some(HOST_DEFAULT)
    case Legacy(flag) => Some(LegacyText(flag))
    case NetworkLevel => if n.Networks? && n.version.Truthy? then n.version.text else None
    case Global => if global.Truthy? then global.text else None
  }

  /** Some read on the way throws; the second flag is read only when the first is off. */
  predicate SomeReadThrows(n: Network, global: Reading)
    requires WellFormed(n)
  {
    n.Networks? &&
    (n.flags[0].Threw? || (n.flags[0].Falsy? && n.flags[1].Threw?) || n.version.Threw? || global.Threw?)
  }

  /**
   The flags are looked at first and the versions override them, yet the answer is the documented
   precedence's; it fails exactly when a read throws or the winner is not a string.
   */
  method ProjectVersion(n: Network, global: Reading) returns (r: Result<Version, Failure>)
    requires WellFormed(n)
    ensures r.Err? <==> SomeReadThrows(n, global) || TextOf(n, global, Winner(n, global)).None?
    ensures r.Ok? ==> r.value == Version(TextOf(n, global, Winner(n, global)).value, Winner(n, global))
  {
    var origin := HostDefault;
    var text := Some(HOST_DEFAULT);
    if n.Networks? {
      var i := 0;
      while i < 2 && origin == HostDefault
        invariant 0 <= i <= 2
        invariant i > 0 ==> !n.flags[0].Threw?
        invariant i > 1 ==> !n.flags[1].Threw? && n.flags[0].Falsy?
        invariant origin == HostDefault ==> (i > 0 ==> n.flags[0].Falsy?) && (i > 1 ==> n.flags[1].Falsy?)
        invariant origin != HostDefault ==>
                    0 < i && origin == Legacy(i - 1) && n.flags[i - 1].Truthy? && (i > 1 ==> n.flags[0].Falsy?)
        invariant text == TextOf(n, global, origin)
        decreases 2 - i
      {
        match n.flags[i] {
          case Falsy =>
          case Threw(failure) => return Err(failure);
          case Truthy(_) => origin, text := Legacy(i), Some(LegacyText(i));
        }
        i := i + 1;
      }
      if n.version.Threw? { return Err(n.version.failure); }
      if global.Threw? { return Err(global.failure); }
      if global.Truthy? {
        origin, text := Global, global.text;
      } else if n.version.Truthy? {
        origin, text := NetworkLevel, n.version.text;
      }
    }
    r := if text.None? then Err(NOT_A_STRING) else Ok(Version(text.value, origin));
  }
}
