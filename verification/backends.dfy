/** The two simulated databases and the case-insensitive matching of their names. */
module Backends {
  import opened Wrappers

  datatype Backend = MySQL | Oracle {

    /** The canonical spelling the service stores as its current database. */
    function Name(): string {
      match this
      case MySQL => "MySQL"
      case Oracle => "Oracle"
    }

    /** The backend that is not this one. */
    function Other(): (o: Backend)
      ensures o != this
    {
      match this
      case MySQL => Oracle
      case Oracle => MySQL
    }
  }

  /** ASCII lower-casing of one character; every other character is left as is. */
  function LowerChar(c: char): char {
    if 'A' <= c <= 'Z' then (c as int - 'A' as int + 'a' as int) as char else c
  }

  /** ASCII lower-casing of a whole string. */
  function Lower(s: string): (r: string)
    ensures |r| == |s|
    ensures forall i :: 0 <= i < |s| ==> r[i] == LowerChar(s[i])
  {
    seq(|s|, i requires 0 <= i < |s| => LowerChar(s[i]))
  }

  /** Java's `String.equalsIgnoreCase` restricted to ASCII letters: same length, and
      the characters agree pairwise once folded. Equivalently, both strings have the
      same lower-case form; in particular every string matches itself. */
  predicate EqualsIgnoreCase(a: string, b: string)
    ensures EqualsIgnoreCase(a, b) <==> Lower(a) == Lower(b)
    ensures a == b ==> EqualsIgnoreCase(a, b)
  {
    |a| == |b| && forall i :: 0 <= i < |a| ==> LowerChar(a[i]) == LowerChar(b[i])
  }

  /** The backend a configuration name selects: "MySQL" is tried before "Oracle",
      both ignoring case; any other name selects nothing. */
  function Parse(name: string): (r: Option<Backend>)
    ensures r.Some? <==> exists b: Backend :: EqualsIgnoreCase(name, b.Name())
    ensures r.Some? ==> EqualsIgnoreCase(name, r.value.Name())
  {
    if EqualsIgnoreCase(name, "MySQL") then
      assert EqualsIgnoreCase(name, MySQL.Name());
      Some(MySQL)
    else if EqualsIgnoreCase(name, "Oracle") then
      assert EqualsIgnoreCase(name, Oracle.Name());
      Some(Oracle)
    else None
  }

  /** Every canonical name selects its own backend. */
  lemma ParseName(b: Backend)
    ensures Parse(b.Name()) == Some(b)
  {
  }

  /** Names that differ only in ASCII case select the same backend. */
  lemma ParseIgnoresCase(a: string, b: string)
    requires EqualsIgnoreCase(a, b)
    ensures Parse(a) == Parse(b)
  {
  }

  /** A name selects the same backend as its lower-case form. */
  lemma ParseLower(name: string)
    ensures Parse(Lower(name)) == Parse(name)
  {
  }

  /** Sample names: lower, upper and mixed case are accepted, other products are not. */
  lemma ParseExamples()
    ensures Parse("mysql") == Some(MySQL)
    ensures Parse("MYSQL") == Some(MySQL)
    ensures Parse("oRaClE") == Some(Oracle)
    ensures Parse("Postgres") == None
    ensures Parse("MySQL ") == None
  {
    assert EqualsIgnoreCase("mysql", "MySQL");
    assert EqualsIgnoreCase("MYSQL", "MySQL");
    assert EqualsIgnoreCase("oRaClE", "Oracle");
    assert !EqualsIgnoreCase("Postgres", "Oracle") by {
      assert LowerChar("Postgres"[0]) != LowerChar("Oracle"[0]);
    }
  }
}
