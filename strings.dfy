/** The Python string operations the core uses: `f"{n}"` on an index,
    slicing past a prefix, `lstrip('/')`, `in` on strings, `str.replace` and
    `str.join`. */
module Strings {

  /** The decimal text of a natural number, as `f"{n}"` writes it. */
  function NatToString(n: nat): (r: string)
    ensures r != []
  {
    if n < 10 then [Digit(n)] else NatToString(n / 10) + [Digit(n % 10)]
  }

  /** The index text is a run of decimal digits without a leading zero. */
  lemma {:induction false} NatToStringDigits(n: nat)
    ensures forall i :: 0 <= i < |NatToString(n)| ==> '0' <= NatToString(n)[i] <= '9'
    ensures |NatToString(n)| > 1 ==> NatToString(n)[0] != '0'
    decreases n
  {
    if n >= 10 {
      NatToStringDigits(n / 10);
      if |NatToString(n / 10)| == 1 {
        assert NatToString(n / 10) == [Digit(n / 10)];
      }
    }
  }

  /** The number a run of decimal digits denotes. */
  function DigitsValue(s: string): nat {
    if s == [] then 0 else DigitsValue(s[..|s| - 1]) * 10 + DigitValue(s[|s| - 1])
  }

  function DigitValue(c: char): nat {
    if '0' <= c <= '9' then (c as int - '0' as int) as nat else 0
  }

  /** Reading the index text back gives the index: distinct indices get
      distinct texts. */
  lemma {:induction false} NatToStringRoundTrip(n: nat)
    ensures DigitsValue(NatToString(n)) == n
    decreases n
  {
    DigitRoundTrip(n % 10);
    if n >= 10 {
      NatToStringRoundTrip(n / 10);
      var s := NatToString(n);
      assert s[..|s| - 1] == NatToString(n / 10);
    } else {
      assert NatToString(n)[..0] == [];
    }
  }

  lemma DigitRoundTrip(d: nat)
    requires d < 10
    ensures DigitValue(Digit(d)) == d
  {
  }

  /** Distinct list indices get distinct path segments. */
  lemma NatToStringInjective(a: nat, b: nat)
    ensures NatToString(a) == NatToString(b) ==> a == b
  {
    NatToStringRoundTrip(a);
    NatToStringRoundTrip(b);
  }

  function Digit(d: nat): (c: char)
    requires d < 10
    ensures '0' <= c <= '9'
  {
    ['0', '1', '2', '3', '4', '5', '6', '7', '8', '9'][d]
  }

  /** `s[n:]` with Python's clamping: empty when `n` is past the end. */
  function Drop(s: string, n: nat): (r: string)
    ensures n <= |s| ==> r == s[n..]
    ensures n >= |s| ==> r == []
  {
    if n <= |s| then s[n..] else []
  }

  /** `s.lstrip('/')`: every leading '/' removed, nothing else. */
  function LStripSlash(s: string): (r: string)
    ensures r == [] || r[0] != '/'
    ensures |r| <= |s|
  {
    if s != [] && s[0] == '/' then LStripSlash(s[1..]) else s
  }

  /** `lstrip('/')` removes a prefix of `/` characters and keeps the rest. */
  lemma {:induction false} LStripSlashRemoves(s: string)
    ensures LStripSlash(s) == s[|s| - |LStripSlash(s)|..]
    ensures forall i :: 0 <= i < |s| - |LStripSlash(s)| ==> s[i] == '/'
    decreases |s|
  {
    if s != [] && s[0] == '/' {
      LStripSlashRemoves(s[1..]);
      assert s[1..][|s| - 1 - |LStripSlash(s)|..] == s[|s| - |LStripSlash(s)|..];
    }
  }

  predicate StartsWith(s: string, prefix: string) {
    |prefix| <= |s| && s[..|prefix|] == prefix
  }

  /** `sub` occurs in `s` starting at index `i`. */
  predicate OccursAt(s: string, sub: string, i: nat) {
    i + |sub| <= |s| && s[i..i + |sub|] == sub
  }

  /** `sub in s`: some window of `s` equals `sub`. */
  predicate Contains(s: string, sub: string) {
    exists i: nat | i <= |s| :: OccursAt(s, sub, i)
  }

  /** The scan `in` performs: `sub` is in `s` when `s` starts with it or
      it is in the rest of `s`. */
  lemma ContainsStep(s: string, sub: string)
    requires s != []
    ensures Contains(s, sub) <==> StartsWith(s, sub) || Contains(s[1..], sub)
  {
    if Contains(s, sub) {
      var i: nat :| i <= |s| && OccursAt(s, sub, i);
      if i > 0 {
        assert s[1..][i - 1..i - 1 + |sub|] == s[i..i + |sub|];
        assert OccursAt(s[1..], sub, i - 1);
      }
    }
    if StartsWith(s, sub) {
      assert OccursAt(s, sub, 0);
    }
    if Contains(s[1..], sub) {
      var i: nat :| i <= |s[1..]| && OccursAt(s[1..], sub, i);
      assert s[i + 1..i + 1 + |sub|] == s[1..][i..i + |sub|];
      assert OccursAt(s, sub, i + 1);
    }
  }

  /** A string none of whose characters starts `sub` does not contain it. */
  lemma AbsentFirstChar(s: string, sub: string)
    requires sub != []
    requires forall i | 0 <= i < |s| :: s[i] != sub[0]
    ensures !Contains(s, sub)
  {
    forall i: nat | i <= |s| ensures !OccursAt(s, sub, i) {
      if i < |s| {
        assert i + |sub| <= |s| ==> s[i..i + |sub|][0] == s[i];
      }
    }
  }

  /** `s.replace(pat, rep)` for a non-empty `pat`: a left-to-right scan that
      replaces every non-overlapping occurrence. */
  function ReplaceAll(s: string, pat: string, rep: string): string
    requires pat != []
  {
    if |s| < |pat| then s
    else if s[..|pat|] == pat then rep + ReplaceAll(s[|pat|..], pat, rep)
    else [s[0]] + ReplaceAll(s[1..], pat, rep)
  }

  /** The number of occurrences `ReplaceAll` replaces (`s.count(pat)`). */
  function Occurrences(s: string, pat: string): nat
    requires pat != []
  {
    if |s| < |pat| then 0
    else if s[..|pat|] == pat then 1 + Occurrences(s[|pat|..], pat)
    else Occurrences(s[1..], pat)
  }

  /** A string that starts with the pattern has it replaced first. */
  lemma ReplaceAllFront(pat: string, rep: string, t: string)
    requires pat != []
    ensures ReplaceAll(pat + t, pat, rep) == rep + ReplaceAll(t, pat, rep)
  {
    var s := pat + t;
    assert s[..|pat|] == pat && s[|pat|..] == t;
  }

  /** A part none of whose characters starts the pattern is copied unchanged. */
  lemma {:induction false} ReplaceAllSkip(pat: string, rep: string, u: string, t: string)
    requires pat != []
    requires forall k | 0 <= k < |u| :: u[k] != pat[0]
    ensures ReplaceAll(u + t, pat, rep) == u + ReplaceAll(t, pat, rep)
    decreases |u|
  {
    var s := u + t;
    if u == [] {
      assert s == t;
    } else if |s| < |pat| {
      assert ReplaceAll(t, pat, rep) == t;
    } else {
      assert s[..|pat|][0] == u[0];
      assert s[1..] == u[1..] + t;
      ReplaceAllSkip(pat, rep, u[1..], t);
      assert [u[0]] + (u[1..] + ReplaceAll(t, pat, rep)) == u + ReplaceAll(t, pat, rep);
    }
  }

  /** Every occurrence is replaced: the length changes by the length
      difference once per occurrence. */
  lemma {:induction false} ReplaceAllLength(s: string, pat: string, rep: string)
    requires pat != []
    ensures |ReplaceAll(s, pat, rep)| == |s| + Occurrences(s, pat) * (|rep| - |pat|)
  {
    var d := |rep| - |pat|;
    if |s| < |pat| {
    } else if s[..|pat|] == pat {
      var t := s[|pat|..];
      ReplaceAllLength(t, pat, rep);
      var k := Occurrences(t, pat);
      assert ReplaceAll(s, pat, rep) == rep + ReplaceAll(t, pat, rep);
      assert Occurrences(s, pat) == k + 1;
      assert |ReplaceAll(t, pat, rep)| == |t| + k * d;
      MulSucc(k, d);
    } else {
      var t := s[1..];
      ReplaceAllLength(t, pat, rep);
      assert ReplaceAll(s, pat, rep) == [s[0]] + ReplaceAll(t, pat, rep);
      assert Occurrences(s, pat) == Occurrences(t, pat);
    }
  }

  /** Concatenation is associative. */
  lemma AppendAssoc<T>(x: seq<T>, y: seq<T>, z: seq<T>)
    ensures x + y + z == x + (y + z)
  {
  }

  lemma MulSucc(k: nat, d: int)
    ensures (k + 1) * d == k * d + d
  {
  }

  /** Where `pat` does not occur, `replace` returns the string unchanged. */
  lemma {:induction false} ReplaceAllAbsent(s: string, pat: string, rep: string)
    requires pat != []
    requires !Contains(s, pat)
    ensures ReplaceAll(s, pat, rep) == s
    ensures Occurrences(s, pat) == 0
  {
    if |s| >= |pat| {
      var t := s[1..];
      ContainsStep(s, pat);
      assert s[..|pat|] != pat;
      ReplaceAllAbsent(t, pat, rep);
      calc {
        ReplaceAll(s, pat, rep);
        [s[0]] + ReplaceAll(t, pat, rep);
        [s[0]] + t;
        s;
      }
    }
  }

  /** `sep.join(parts)`. */
  function Join(sep: string, parts: seq<string>): (r: string)
    ensures parts == [] ==> r == []
    ensures |parts| == 1 ==> r == parts[0]
    ensures parts != [] ==> StartsWith(r, parts[0])
  {
    if parts == [] then []
    else if |parts| == 1 then parts[0]
    else parts[0] + sep + Join(sep, parts[1..])
  }

  /** Each part preceded by `sep`, concatenated. */
  function Prefixed(sep: string, parts: seq<string>): (r: string)
    ensures parts == [] ==> r == []
  {
    if parts == [] then [] else sep + parts[0] + Prefixed(sep, parts[1..])
  }

  /** `sep + sep.join(parts)` puts `sep` before every part. */
  lemma {:induction false} JoinPrefixed(sep: string, parts: seq<string>)
    requires parts != []
    ensures sep + Join(sep, parts) == Prefixed(sep, parts)
    decreases |parts|
  {
    if |parts| == 1 {
      assert parts[1..] == [];
    } else {
      JoinPrefixed(sep, parts[1..]);
      calc {
        sep + Join(sep, parts);
        sep + (parts[0] + sep + Join(sep, parts[1..]));
        sep + parts[0] + (sep + Join(sep, parts[1..]));
        sep + parts[0] + Prefixed(sep, parts[1..]);
      }
    }
  }
}
