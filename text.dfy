/**
 * The string operations the local transcription path applies to its segments:
 * joining with single spaces and stripping surrounding whitespace.
 */
module Text {

  /** The characters Python's `str.isspace` accepts, which `str.strip()` removes. */
  predicate IsSpace(c: char)
  {
    var n := c as int;
    || (0x09 <= n <= 0x0D) || (0x1C <= n <= 0x20)
    || n == 0x85 || n == 0xA0 || n == 0x1680
    || (0x2000 <= n <= 0x200A)
    || n == 0x2028 || n == 0x2029 || n == 0x202F || n == 0x205F || n == 0x3000
  }

  predicate AllSpace(s: string)
  {
    forall i :: 0 <= i < |s| ==> IsSpace(s[i])
  }

  /** Neither end of `s` is whitespace (vacuously so for the empty string). */
  predicate Trimmed(s: string)
  {
    s == [] || (!IsSpace(s[0]) && !IsSpace(s[|s| - 1]))
  }

  /** `lstrip()`: drops the leading whitespace. */
  function TrimStart(s: string): (r: string)
    ensures |r| <= |s| && r == s[|s| - |r|..]
    ensures AllSpace(s[..|s| - |r|])
    ensures r == [] || !IsSpace(r[0])
  {
    if s != [] && IsSpace(s[0]) then TrimStart(s[1..]) else s
  }

  /** `rstrip()`: drops the trailing whitespace. */
  function TrimEnd(s: string): (r: string)
    ensures |r| <= |s| && r == s[..|r|]
    ensures AllSpace(s[|r|..])
    ensures r == [] || !IsSpace(r[|r| - 1])
  {
    if s != [] && IsSpace(s[|s| - 1]) then TrimEnd(s[..|s| - 1]) else s
  }

  /** `strip()`: the part of `s` between its leading and its trailing whitespace. */
  function Strip(s: string): (r: string)
    ensures Trimmed(r)
    ensures |r| <= |s|
  {
    var t := TrimStart(s);
    var r := TrimEnd(t);
    assert r == [] || r[0] == t[0];
    r
  }

  lemma {:induction false} TrimStartPast(p: string, t: string)
    requires AllSpace(p)
    requires t == [] || !IsSpace(t[0])
    ensures TrimStart(p + t) == t
  {
    if p != [] {
      assert (p + t)[1..] == p[1..] + t;
      TrimStartPast(p[1..], t);
    } else {
      assert p + t == t;
    }
  }

  lemma {:induction false} TrimEndPast(t: string, q: string)
    requires AllSpace(q)
    requires t == [] || !IsSpace(t[|t| - 1])
    ensures TrimEnd(t + q) == t
  {
    if q != [] {
      assert (t + q)[..|t + q| - 1] == t + q[..|q| - 1];
      TrimEndPast(t, q[..|q| - 1]);
    } else {
      assert t + q == t;
    }
  }

  /**
   * Strip removes exactly the surrounding whitespace: a string made of whitespace,
   * a core with non-space ends, and whitespace strips to that core.
   */
  lemma StripExact(p: string, m: string, q: string)
    requires AllSpace(p) && AllSpace(q) && Trimmed(m)
    ensures Strip(p + m + q) == m
  {
    if m == [] {
      assert p + m + q == (p + q) + [];
      TrimStartPast(p + q, []);
    } else {
      assert p + m + q == p + (m + q);
      TrimStartPast(p, m + q);
      TrimEndPast(m, q);
    }
  }

  /** Stripping twice is stripping once. */
  lemma StripIdempotent(s: string)
    ensures Strip(Strip(s)) == Strip(s)
  {
    var r := Strip(s);
    assert r == [] + r + [];
    StripExact([], r, []);
  }

  /** `" ".join(parts)`: the parts separated by single spaces. */
  function JoinWithSpace(parts: seq<string>): (r: string)
  {
    if |parts| == 0 then ""
    else if |parts| == 1 then parts[0]
    else JoinWithSpace(parts[..|parts| - 1]) + " " + parts[|parts| - 1]
  }

  function TotalLength(parts: seq<string>): nat
  {
    if parts == [] then 0 else TotalLength(parts[..|parts| - 1]) + |parts[|parts| - 1]|
  }

  /** The joined text holds every character of the parts plus one separator between neighbours. */
  lemma {:induction false} JoinLength(parts: seq<string>)
    requires parts != []
    ensures |JoinWithSpace(parts)| == TotalLength(parts) + |parts| - 1
  {
    if |parts| > 1 {
      JoinLength(parts[..|parts| - 1]);
    } else {
      assert parts[..0] == [];
    }
  }

  /** Joining two non-empty runs of parts is joining each and putting one space between. */
  lemma {:induction false} JoinConcat(a: seq<string>, b: seq<string>)
    requires a != [] && b != []
    ensures JoinWithSpace(a + b) == JoinWithSpace(a) + " " + JoinWithSpace(b)
  {
    if |b| == 1 {
      assert (a + b)[..|a + b| - 1] == a;
    } else {
      var b' := b[..|b| - 1];
      assert (a + b)[..|a + b| - 1] == a + b';
      JoinConcat(a, b');
    }
  }

  /** Joined non-empty parts start with the first part's first character and end with the last part's last. */
  lemma {:induction false} JoinEnds(parts: seq<string>)
    requires parts != []
    requires forall i :: 0 <= i < |parts| ==> parts[i] != []
    ensures var j := JoinWithSpace(parts);
      j != [] && j[0] == parts[0][0] && j[|j| - 1] == parts[|parts| - 1][|parts[|parts| - 1]| - 1]
  {
    if |parts| > 1 {
      var init := parts[..|parts| - 1];
      JoinEnds(init);
      assert init[0] == parts[0];
    }
  }

  /** Segments that are non-empty and already trimmed survive the join and strip unchanged. */
  lemma JoinOfTrimmedIsTrimmed(parts: seq<string>)
    requires forall i :: 0 <= i < |parts| ==> parts[i] != [] && Trimmed(parts[i])
    ensures Strip(JoinWithSpace(parts)) == JoinWithSpace(parts)
  {
    var j := JoinWithSpace(parts);
    if parts != [] {
      JoinEnds(parts);
      assert Trimmed(parts[0]) && Trimmed(parts[|parts| - 1]);
    }
    assert Trimmed(j);
    assert j == [] + j + [];
    StripExact([], j, []);
  }

  /** Stripping the join gives the plain join whenever every segment is non-empty and trimmed. */
  lemma StripJoinOfTrimmed(parts: seq<string>)
    ensures (forall i :: 0 <= i < |parts| ==> parts[i] != [] && Trimmed(parts[i]))
              ==> Strip(JoinWithSpace(parts)) == JoinWithSpace(parts)
  {
    if forall i :: 0 <= i < |parts| ==> parts[i] != [] && Trimmed(parts[i]) {
      JoinOfTrimmedIsTrimmed(parts);
    }
  }
}
