/**
 * The JavaScript string operations the adapter relies on: `split` on one
 * character, `indexOf`/`replace` with a string pattern (first occurrence only,
 * with the `$` patterns of the replacement substituted), template-literal rendering of `undefined`, and the ASCII part of a
 * case-insensitive regular-expression match.
 */
module Strings {
  import opened Wrappers

  /** How a template literal renders a string that may be `undefined`. */
  function Show(o: Option<string>): string
  {
    match o
    case None => "undefined"
    case Some(s) => s
  }

  /** JavaScript truthiness of a string that may be `undefined`. */
  predicate Truthy(o: Option<string>)
  {
    o.Some? && o.value != ""
  }

  /** The inverse of `Split`: the parts glued back with the separator. */
  function Join(parts: seq<string>, sep: char): string
    requires |parts| >= 1
  {
    if |parts| == 1 then parts[0] else parts[0] + [sep] + Join(parts[1..], sep)
  }

  /** `s.split(sep)` for a one-character separator. */
  function Split(s: string, sep: char): (parts: seq<string>)
    ensures |parts| >= 1
    ensures forall k :: 0 <= k < |parts| ==> sep !in parts[k]
    ensures Join(parts, sep) == s
  {
    if s == [] then [""]
    else
      var rest := Split(s[1..], sep);
      if s[0] == sep then
        assert Join([""] + rest, sep) == [sep] + Join(rest, sep) by {
          assert ([""] + rest)[1..] == rest;
        }
        [""] + rest
      else
        JoinConsFirst(s[0], rest, sep);
        [[s[0]] + rest[0]] + rest[1..]
  }

  lemma JoinConsFirst(c: char, parts: seq<string>, sep: char)
    requires |parts| >= 1
    ensures Join([[c] + parts[0]] + parts[1..], sep) == [c] + Join(parts, sep)
  {
    var q := [[c] + parts[0]] + parts[1..];
    if |parts| > 1 {
      assert q[1..] == parts[1..];
    }
  }

  /** Splitting a part that holds no separator, followed by the separator, peels that part off. */
  lemma {:induction false} SplitAfterPart(a: string, b: string, sep: char)
    requires sep !in a
    ensures Split(a + [sep] + b, sep) == [a] + Split(b, sep)
  {
    if a == [] {
      assert ([sep] + b)[1..] == b;
    } else {
      var s := a + [sep] + b;
      assert s[1..] == a[1..] + [sep] + b;
      SplitAfterPart(a[1..], b, sep);
      assert [a[0]] + a[1..] == a;
    }
  }

  /** A string without the separator splits into itself. */
  lemma {:induction false} SplitNoSeparator(a: string, sep: char)
    requires sep !in a
    ensures Split(a, sep) == [a]
  {
    if a != [] {
      SplitNoSeparator(a[1..], sep);
      assert [a[0]] + a[1..] == a;
    }
  }

  /** Round trip: splitting the joined parts gives the parts back. */
  lemma {:induction false} SplitJoin(parts: seq<string>, sep: char)
    requires |parts| >= 1
    requires forall k :: 0 <= k < |parts| ==> sep !in parts[k]
    ensures Split(Join(parts, sep), sep) == parts
  {
    if |parts| == 1 {
      SplitNoSeparator(parts[0], sep);
    } else {
      SplitJoin(parts[1..], sep);
      SplitAfterPart(parts[0], Join(parts[1..], sep), sep);
    }
  }

  /** `p` occurs in `s` at index `j`. */
  predicate OccursAt(s: string, p: string, j: nat)
  {
    j + |p| <= |s| && s[j..j + |p|] == p
  }

  function IndexOfFrom(s: string, p: string, i: nat): (r: Option<nat>)
    ensures r.Some? ==> i <= r.value && OccursAt(s, p, r.value)
    ensures r.Some? ==> forall j :: i <= j < r.value ==> !OccursAt(s, p, j)
    ensures r.None? ==> forall j :: i <= j ==> !OccursAt(s, p, j)
    decreases |s| - i
  {
    if i + |p| > |s| then None
    else if s[i..i + |p|] == p then Some(i)
    else IndexOfFrom(s, p, i + 1)
  }

  /** `s.indexOf(p)`, with `None` for -1: the first index where `p` occurs. */
  function IndexOf(s: string, p: string): (r: Option<nat>)
    ensures r.Some? ==> OccursAt(s, p, r.value) && forall j :: 0 <= j < r.value ==> !OccursAt(s, p, j)
    ensures r.None? <==> forall j :: 0 <= j ==> !OccursAt(s, p, j)
  {
    IndexOfFrom(s, p, 0)
  }

  /**
   * The text JavaScript's `replace` inserts for a match (the GetSubstitution
   * operation of ECMA-262): `$$` stands for `$`, `$&` for the matched text,
   * `` $` `` for the text before the match and `$'` for the text after it. A
   * string pattern has no capture groups, so every other `$` is literal.
   */
  function Substitution(r: string, matched: string, before: string, after: string): string
  {
    if r == [] then []
    else if r[0] == '$' && |r| >= 2 && r[1] in "$&`'" then
      (match r[1]
       case '$' => "$"
       case '&' => matched
       case '`' => before
       case _ => after) + Substitution(r[2..], matched, before, after)
    else [r[0]] + Substitution(r[1..], matched, before, after)
  }

  /** A replacement without `$` is inserted as it is. */
  lemma {:induction false} SubstitutionLiteral(r: string, matched: string, before: string, after: string)
    requires '$' !in r
    ensures Substitution(r, matched, before, after) == r
  {
    if r != [] {
      assert '$' !in r[1..] by {
        assert forall k :: 0 <= k < |r[1..]| ==> r[1..][k] == r[k + 1];
      }
      SubstitutionLiteral(r[1..], matched, before, after);
      assert [r[0]] + r[1..] == r;
    }
  }

  /** A leading character other than `$` is copied as it is. */
  lemma SubstitutionLiteralHead(r: string, matched: string, before: string, after: string)
    requires |r| > 0 && r[0] != '$'
    ensures Substitution(r, matched, before, after) == [r[0]] + Substitution(r[1..], matched, before, after)
  {
  }

  /** Each of the four patterns on its own, and an escaped `$&`. */
  lemma SubstitutionPatterns(matched: string, before: string, after: string)
    ensures Substitution("$&", matched, before, after) == matched
    ensures Substitution("$`", matched, before, after) == before
    ensures Substitution("$'", matched, before, after) == after
    ensures Substitution("$$&", matched, before, after) == "$&"
    ensures Substitution("$1", matched, before, after) == "$1"
  {
    assert "$&"[2..] == [] && "$`"[2..] == [] && "$'"[2..] == [];
    assert "$$&"[2..] == "&" && "&"[1..] == [];
    assert "$1"[1..] == "1" && "1"[1..] == [];
  }

  /**
   * `s.replace(p, r)` with a string pattern: only the first occurrence is
   * replaced, by `r` with its `$` patterns substituted.
   */
  function ReplaceFirst(s: string, p: string, r: string): string
  {
    match IndexOf(s, p)
    case None => s
    case Some(i) => s[..i] + Substitution(r, p, s[..i], s[i + |p|..]) + s[i + |p|..]
  }

  /** Without an occurrence of the pattern the string is returned unchanged. */
  lemma ReplaceFirstAbsent(s: string, p: string, r: string)
    requires forall j :: 0 <= j ==> !OccursAt(s, p, j)
    ensures ReplaceFirst(s, p, r) == s
  {
  }

  /**
   * With an occurrence, the result is the text before the first occurrence,
   * the substituted replacement, and everything after that occurrence.
   */
  lemma ReplaceFirstPresent(s: string, p: string, r: string, i: nat)
    requires OccursAt(s, p, i)
    requires forall j :: 0 <= j < i ==> !OccursAt(s, p, j)
    ensures ReplaceFirst(s, p, r) == s[..i] + Substitution(r, p, s[..i], s[i + |p|..]) + s[i + |p|..]
  {
    assert IndexOf(s, p).Some?;
  }

  /**
   * Both cases of `ReplaceFirst`, for every position of a first occurrence;
   * a replacement without `$` is inserted literally.
   */
  lemma ReplaceFirstCases(s: string, p: string, r: string)
    ensures (forall j :: 0 <= j ==> !OccursAt(s, p, j)) ==> ReplaceFirst(s, p, r) == s
    ensures forall i: nat :: OccursAt(s, p, i) && (forall j :: 0 <= j < i ==> !OccursAt(s, p, j)) ==>
      ReplaceFirst(s, p, r) == s[..i] + Substitution(r, p, s[..i], s[i + |p|..]) + s[i + |p|..]
    ensures '$' !in r ==> forall i: nat :: OccursAt(s, p, i) && (forall j :: 0 <= j < i ==> !OccursAt(s, p, j)) ==>
      ReplaceFirst(s, p, r) == s[..i] + r + s[i + |p|..]
  {
    forall i: nat | OccursAt(s, p, i) && (forall j :: 0 <= j < i ==> !OccursAt(s, p, j))
      ensures ReplaceFirst(s, p, r) == s[..i] + Substitution(r, p, s[..i], s[i + |p|..]) + s[i + |p|..]
      ensures '$' !in r ==> ReplaceFirst(s, p, r) == s[..i] + r + s[i + |p|..]
    {
      ReplaceFirstPresent(s, p, r, i);
      if '$' !in r {
        SubstitutionLiteral(r, p, s[..i], s[i + |p|..]);
      }
    }
  }

  /** A replacement without `$` is inserted literally at the first occurrence. */
  lemma ReplaceFirstLiteral(s: string, p: string, r: string, i: nat)
    requires OccursAt(s, p, i)
    requires forall j :: 0 <= j < i ==> !OccursAt(s, p, j)
    requires '$' !in r
    ensures ReplaceFirst(s, p, r) == s[..i] + r + s[i + |p|..]
  {
    ReplaceFirstPresent(s, p, r, i);
    SubstitutionLiteral(r, p, s[..i], s[i + |p|..]);
  }

  /** A replacement that starts with a character other than `$` keeps that character. */
  lemma ReplaceFirstLiteralHead(s: string, p: string, r: string, i: nat)
    requires OccursAt(s, p, i)
    requires forall j :: 0 <= j < i ==> !OccursAt(s, p, j)
    requires |r| > 0 && r[0] != '$'
    ensures ReplaceFirst(s, p, r) == s[..i] + [r[0]] + Substitution(r[1..], p, s[..i], s[i + |p|..]) + s[i + |p|..]
  {
    var before, after := s[..i], s[i + |p|..];
    ReplaceFirstPresent(s, p, r, i);
    SubstitutionLiteralHead(r, p, before, after);
    ConcatHead(before, r[0], Substitution(r[1..], p, before, after), after);
  }

  /** `ReplaceFirstLiteralHead` for a replacement `c` followed by `name`. */
  lemma ReplaceFirstCharHead(s: string, p: string, c: char, name: string, i: nat)
    requires OccursAt(s, p, i)
    requires forall j :: 0 <= j < i ==> !OccursAt(s, p, j)
    requires c != '$'
    ensures ReplaceFirst(s, p, [c] + name) == s[..i] + [c] + Substitution(name, p, s[..i], s[i + |p|..]) + s[i + |p|..]
  {
    var r := [c] + name;
    assert r[0] == c && r[1..] == name;
    ReplaceFirstLiteralHead(s, p, r, i);
  }

  /** A string that starts with the pattern has that first occurrence replaced. */
  lemma ReplaceFirstAtStart(p: string, rest: string, c: char, name: string)
    requires c != '$'
    ensures ReplaceFirst(p + rest, p, [c] + name) == [c] + Substitution(name, p, [], rest) + rest
  {
    var s := p + rest;
    assert OccursAt(s, p, 0) by {
      assert s[0..|p|] == p;
    }
    assert s[..0] == [] && s[|p|..] == rest;
    ReplaceFirstCharHead(s, p, c, name, 0);
  }

  /** `(p + rest).replace(p, r)` for a replacement without `$` is `r + rest`. */
  lemma ReplaceFirstLiteralAtStart(p: string, rest: string, r: string)
    requires '$' !in r
    ensures ReplaceFirst(p + rest, p, r) == r + rest
  {
    var s := p + rest;
    assert OccursAt(s, p, 0) by {
      assert s[0..|p|] == p;
    }
    assert s[..0] == [] && s[|p|..] == rest;
    ReplaceFirstLiteral(s, p, r, 0);
  }

  /** `(w + c).replace(c, r)` for a `w` without `c` and a replacement without `$` is `w + r`. */
  lemma ReplaceFirstLiteralAtEnd(w: string, c: char, r: string)
    requires c !in w && '$' !in r
    ensures ReplaceFirst(w + [c], [c], r) == w + r
  {
    var s := w + [c];
    assert OccursAt(s, [c], |w|) by {
      assert s[|w|..|w| + 1] == [c];
    }
    forall j | 0 <= j < |w| ensures !OccursAt(s, [c], j) {
      assert s[j..j + 1] == [w[j]];
    }
    assert s[..|w|] == w && s[|w| + 1..] == [];
    ReplaceFirstLiteral(s, [c], r, |w|);
  }

  /** Regrouping a concatenation around one character. */
  lemma ConcatHead(a: string, c: char, x: string, b: string)
    ensures a + ([c] + x) + b == a + [c] + x + b
  {
  }

  /** Without a case-insensitive match there is no exact occurrence either. */
  lemma NoCiMatchNoOccurrence(s: string, p: string)
    requires forall j :: 0 <= j ==> !CiOccursAt(s, p, j)
    ensures forall j :: 0 <= j ==> !OccursAt(s, p, j)
  {
    forall j: nat | OccursAt(s, p, j) ensures false {
      OccursAtIsCi(s, p, j);
    }
  }

  /** ASCII lower-casing, the part of case folding the adapter's identifiers use. */
  function Lower(c: char): char
  {
    if 'A' <= c <= 'Z' then (c as int + 32) as char else c
  }

  /** A string lower-cased character by character. */
  function LowerAll(s: string): (r: string)
    ensures |r| == |s|
  {
    if s == [] then [] else [Lower(s[0])] + LowerAll(s[1..])
  }

  /** A case-insensitive match of `p` in `s` at index `j`. */
  predicate CiOccursAt(s: string, p: string, j: nat)
  {
    j + |p| <= |s| && LowerAll(s[j..j + |p|]) == LowerAll(p)
  }

  /**
   * The number of matches `s.match(new RegExp(p, "gi"))` returns for a
   * non-empty literal pattern: scan left to right, skip past each match.
   */
  function CiMatchCount(s: string, p: string, i: nat): (n: nat)
    requires |p| > 0
    ensures n == 0 <==> forall j :: i <= j ==> !CiOccursAt(s, p, j)
    decreases |s| - i
  {
    if i + |p| > |s| then 0
    else if CiOccursAt(s, p, i) then 1 + CiMatchCount(s, p, i + |p|)
    else CiMatchCount(s, p, i + 1)
  }

  /** An exact occurrence is also a case-insensitive one. */
  lemma OccursAtIsCi(s: string, p: string, j: nat)
    requires OccursAt(s, p, j)
    ensures CiOccursAt(s, p, j)
  {
  }
}
