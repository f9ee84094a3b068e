/** The task priority enum (`Priority.kt`) with its `name` and `valueOf`. */
module Priorities {
  import opened Wrappers

  /** The four priority levels, in declaration order. */
  datatype Priority = HIGH | MEDIUM | LOW | NONE

  /** `Priority.values()`: every level, in declaration order. */
  const Values: seq<Priority> := [HIGH, MEDIUM, LOW, NONE]

  /** `Priority.name`: the constant's identifier, a non-empty upper-case word. */
  function Name(p: Priority): (r: string)
    ensures |r| > 0 && forall i :: 0 <= i < |r| ==> 'A' <= r[i] <= 'Z'
  {
    match p
    case HIGH => "HIGH"
    case MEDIUM => "MEDIUM"
    case LOW => "LOW"
    case NONE => "NONE"
  }

  /**
   * `Priority.valueOf(s)`: the constant whose name is exactly `s`;
   * `None` stands for the IllegalArgumentException it throws otherwise.
   */
  function ValueOf(s: string): (r: Option<Priority>)
    ensures r.Some? ==> Name(r.value) == s
    ensures r.None? ==> forall p: Priority :: Name(p) != s
  {
    if s == "HIGH" then Some(HIGH)
    else if s == "MEDIUM" then Some(MEDIUM)
    else if s == "LOW" then Some(LOW)
    else if s == "NONE" then Some(NONE)
    else None
  }

  /** Parsing a name gives back the constant it names. */
  lemma ValueOfName(p: Priority)
    ensures ValueOf(Name(p)) == Some(p)
  {
    match p
    case HIGH =>
    case MEDIUM =>
    case LOW =>
    case NONE =>
  }

  /** `valueOf` succeeds exactly on the four names. */
  lemma ValueOfExactlyNames(s: string)
    ensures ValueOf(s).Some? <==> exists p: Priority :: Name(p) == s
  {
    if p: Priority :| Name(p) == s {
      ValueOfName(p);
    }
  }

  /** The four names are pairwise distinct. */
  lemma NamesDistinct(p: Priority, q: Priority)
    ensures Name(p) == Name(q) <==> p == q
  {
    ValueOfName(p);
    ValueOfName(q);
  }

  /** `values()` lists every level exactly once, and there are four. */
  lemma ValuesEnumerateAll()
    ensures |Values| == 4
    ensures forall p: Priority :: p in Values
    ensures forall i, j :: 0 <= i < j < |Values| ==> Values[i] != Values[j]
  {
    forall p: Priority ensures p in Values {
      match p
      case HIGH => assert Values[0] == p;
      case MEDIUM => assert Values[1] == p;
      case LOW => assert Values[2] == p;
      case NONE => assert Values[3] == p;
    }
  }
}
