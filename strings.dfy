/** Text helpers the evaluators and commands share: splitting on separator
    characters, joining with one, counting a character and ASCII case. */
module Strings {

  /** `s.split(|c| seps.contains(&c))`: the pieces between separators, in
      order. An empty string is one empty piece, and two adjacent separators
      give an empty piece between them. */
  function Split(s: string, seps: set<char>): (parts: seq<string>)
    ensures |parts| >= 1
    ensures forall i :: 0 <= i < |parts| ==> forall c :: c in seps ==> c !in parts[i]
    decreases |s|
  {
    if |s| == 0 then [""]
    else
      var rest := Split(s[1..], seps);
      if s[0] in seps then [""] + rest
      else [[s[0]] + rest[0]] + rest[1..]
  }

  /** The pieces with `sep` between each two neighbours. */
  function Join(parts: seq<string>, sep: char): (s: string)
    requires |parts| >= 1
  {
    if |parts| == 1 then parts[0] else parts[0] + [sep] + Join(parts[1..], sep)
  }

  /** How often `c` occurs in `s`. */
  function Count(s: string, c: char): nat
  {
    if |s| == 0 then 0 else (if s[0] == c then 1 else 0) + Count(s[1..], c)
  }

  /** Joining the pieces of a split on one character gives back the string. */
  lemma {:induction false} JoinSplit(s: string, c: char)
    ensures Join(Split(s, {c}), c) == s
    decreases |s|
  {
    if |s| > 0 {
      JoinSplit(s[1..], c);
      var rest := Split(s[1..], {c});
      if s[0] != c {
        if |rest| > 1 {
          assert Join(rest, c) == rest[0] + [c] + Join(rest[1..], c);
        }
        assert s == [s[0]] + s[1..];
      } else {
        assert s == [c] + s[1..];
      }
    }
  }

  /** Splitting a join of pieces free of `c` on `c` gives back the pieces. */
  lemma {:induction false} SplitJoin(parts: seq<string>, c: char)
    requires |parts| >= 1
    requires forall i :: 0 <= i < |parts| ==> c !in parts[i]
    ensures Split(Join(parts, c), {c}) == parts
    decreases |parts|, |parts[0]|
  {
    var s := Join(parts, c);
    if |parts[0]| > 0 {
      var tail := [parts[0][1..]] + parts[1..];
      assert forall i :: 0 <= i < |tail| ==> c !in tail[i] by {
        assert tail[0] == parts[0][1..];
        assert forall i :: 1 <= i < |tail| ==> tail[i] == parts[i];
      }
      SplitJoin(tail, c);
      JoinFirst(parts, c);
      assert s[0] != c;
      assert Split(s, {c}) == [[s[0]] + Split(s[1..], {c})[0]] + Split(s[1..], {c})[1..];
      assert [parts[0][0]] + parts[0][1..] == parts[0];
    } else if |parts| > 1 {
      SplitJoin(parts[1..], c);
      JoinEmptyFirst(parts, c);
      assert s[1..] == Join(parts[1..], c);
      assert [""] + parts[1..] == parts;
    }
  }

  /** A join starts with the first character of a non-empty first piece,
      followed by the join with that character dropped. */
  lemma JoinFirst(parts: seq<string>, c: char)
    requires |parts| >= 1 && |parts[0]| > 0
    ensures |Join(parts, c)| > 0 && Join(parts, c)[0] == parts[0][0]
    ensures Join(parts, c)[1..] == Join([parts[0][1..]] + parts[1..], c)
  {
    var tail := [parts[0][1..]] + parts[1..];
    if |parts| == 1 {
      assert tail == [parts[0][1..]];
    } else {
      var rest := [c] + Join(parts[1..], c);
      assert tail[1..] == parts[1..];
      assert Join(parts, c) == parts[0] + rest;
      assert Join(tail, c) == parts[0][1..] + rest;
      DropFirst(parts[0], rest);
    }
  }

  lemma DropFirst(a: string, b: string)
    requires |a| > 0
    ensures (a + b)[0] == a[0] && (a + b)[1..] == a[1..] + b
  {
  }

  /** A join whose first piece is empty starts with the separator. */
  lemma JoinEmptyFirst(parts: seq<string>, c: char)
    requires |parts| > 1 && parts[0] == ""
    ensures Join(parts, c) == [c] + Join(parts[1..], c)
  {
  }

  /** Splitting on one character gives one piece more than the character
      occurs. */
  lemma {:induction false} SplitCount(s: string, c: char)
    ensures |Split(s, {c})| == Count(s, c) + 1
    decreases |s|
  {
    if |s| > 0 {
      SplitCount(s[1..], c);
    }
  }

  /** ASCII lower case of one character; other characters are kept. */
  function LowerChar(c: char): (l: char)
    ensures 'A' <= c <= 'Z' ==> l as int == c as int + 32
    ensures !('A' <= c <= 'Z') ==> l == c
    ensures !('A' <= l <= 'Z')
  {
    if 'A' <= c <= 'Z' then (c as int + 32) as char else c
  }

  /** ASCII lower case of a string. */
  function Lower(s: string): (l: string)
    ensures |l| == |s|
    ensures forall i :: 0 <= i < |s| ==> l[i] == LowerChar(s[i])
  {
    if |s| == 0 then "" else [LowerChar(s[0])] + Lower(s[1..])
  }

  predicate EndsWith(s: string, suffix: string)
  {
    |suffix| <= |s| && s[|s| - |suffix|..] == suffix
  }

  predicate StartsWith(s: string, prefix: string)
  {
    |prefix| <= |s| && s[..|prefix|] == prefix
  }
}
