/** The string operations the track-sync code relies on: `toLowerCase`
    (over ASCII only), `replace` with the global pattern /['"]/g, `replace`
    with a one-character string pattern (first occurrence only), and
    `join()` / `split(',')` with the default comma separator. */
module Text {

  /** ASCII lower case of one character; every other character is kept. */
  function LowerChar(c: char): char {
    if 'A' <= c <= 'Z' then (c as int + 32) as char else c
  }

  /** `s.toLowerCase()`, character by character over ASCII. */
  function Lower(s: string): string {
    seq(|s|, i requires 0 <= i < |s| => LowerChar(s[i]))
  }

  lemma LowerTwice(s: string)
    ensures Lower(Lower(s)) == Lower(s)
  {
  }

  lemma LowerAppend(a: string, b: string)
    ensures Lower(a + b) == Lower(a) + Lower(b)
  {
  }

  predicate IsQuote(c: char) {
    c == '\'' || c == '"'
  }

  /** The number of quote characters in `s`. */
  function CountQuotes(s: string): nat {
    if s == [] then 0 else (if IsQuote(s[0]) then 1 else 0) + CountQuotes(s[1..])
  }

  /** `s.replace(/['"]/g, '')`: every quote character removed, the rest kept in order. */
  function StripQuotes(s: string): (r: string)
    ensures forall i :: 0 <= i < |r| ==> !IsQuote(r[i])
    ensures |r| == |s| - CountQuotes(s)
    ensures CountQuotes(s) == 0 ==> r == s
  {
    if s == [] then [] else (if IsQuote(s[0]) then [] else [s[0]]) + StripQuotes(s[1..])
  }

  /** Removing quotes and lower-casing can be done in either order. */
  lemma {:induction false} StripQuotesLower(s: string)
    ensures Lower(StripQuotes(s)) == StripQuotes(Lower(s))
  {
    if s != [] {
      StripQuotesLower(s[1..]);
      assert Lower(s)[1..] == Lower(s[1..]);
      LowerAppend(if IsQuote(s[0]) then [] else [s[0]], StripQuotes(s[1..]));
    }
  }

  /** The index of the first `c` in `s`, or `|s|` when there is none. */
  function IndexOf(s: string, c: char): (i: nat)
    ensures i <= |s|
    ensures i < |s| ==> s[i] == c
    ensures forall j :: 0 <= j < i ==> s[j] != c
  {
    if s == [] then 0 else if s[0] == c then 0 else 1 + IndexOf(s[1..], c)
  }

  /** `s.replace(from, to)` with a one-character string pattern: only the
      first occurrence of `from` is replaced, every other position is kept. */
  function ReplaceFirst(s: string, from: char, to: char): (r: string)
    ensures |r| == |s|
    ensures IndexOf(s, from) < |s| ==> r[IndexOf(s, from)] == to
    ensures forall j :: 0 <= j < |s| && j != IndexOf(s, from) ==> r[j] == s[j]
  {
    if s == [] then []
    else if s[0] == from then [to] + s[1..]
    else [s[0]] + ReplaceFirst(s[1..], from, to)
  }

  /** Lower-casing does not move the first hyphen, so it commutes with replacing it. */
  lemma {:induction false} LowerReplaceFirstHyphen(s: string)
    ensures Lower(ReplaceFirst(s, '-', ' ')) == ReplaceFirst(Lower(s), '-', ' ')
  {
    if s != [] {
      assert Lower(s)[1..] == Lower(s[1..]);
      if s[0] == '-' {
        LowerAppend(" ", s[1..]);
      } else {
        LowerReplaceFirstHyphen(s[1..]);
        LowerAppend([s[0]], ReplaceFirst(s[1..], '-', ' '));
      }
    }
  }

  /** `xs.join()`: the elements separated by single commas; `[]` gives "". */
  function Join(xs: seq<string>): string {
    if xs == [] then "" else if |xs| == 1 then xs[0] else xs[0] + "," + Join(xs[1..])
  }

  /** `s.split(',')`: never empty, and no piece contains a comma. */
  function Split(s: string): (r: seq<string>)
    ensures |r| >= 1
    ensures forall k :: 0 <= k < |r| ==> ',' !in r[k]
    decreases |s|
  {
    var i := IndexOf(s, ',');
    if i == |s| then
      assert forall j :: 0 <= j < |s| ==> s[j] != ',';
      [s]
    else
      assert forall j :: 0 <= j < |s[..i]| ==> s[..i][j] != ',';
      [s[..i]] + Split(s[i + 1..])
  }

  lemma IndexOfAfter(a: string, c: char, b: string)
    requires c !in a
    ensures IndexOf(a + [c] + b, c) == |a|
  {
    var s := a + [c] + b;
    assert forall j :: 0 <= j < |a| ==> s[j] == a[j];
    assert s[|a|] == c;
  }

  /** Joining comma-free pieces and splitting the result gives the pieces
      back; the one exception is the empty list, whose join "" splits into [""]. */
  lemma {:induction false} SplitJoin(xs: seq<string>)
    requires forall k :: 0 <= k < |xs| ==> ',' !in xs[k]
    ensures Split(Join(xs)) == if xs == [] then [""] else xs
  {
    if xs == [] {
    } else if |xs| == 1 {
      assert forall j :: 0 <= j < |xs[0]| ==> xs[0][j] != ',';
    } else {
      var s := xs[0] + "," + Join(xs[1..]);
      IndexOfAfter(xs[0], ',', Join(xs[1..]));
      assert s[..|xs[0]|] == xs[0];
      assert s[|xs[0]| + 1..] == Join(xs[1..]);
      SplitJoin(xs[1..]);
    }
  }

  /** Splitting on commas and joining again gives back the string. */
  lemma {:induction false} JoinSplit(s: string)
    ensures Join(Split(s)) == s
    decreases |s|
  {
    var i := IndexOf(s, ',');
    if i < |s| {
      var head, tail := s[..i], s[i + 1..];
      var rest := Split(tail);
      JoinSplit(tail);
      var xs := [head] + rest;
      assert Split(s) == xs;
      assert xs[0] == head && xs[1..] == rest && |xs| >= 2;
      assert Join(xs) == head + "," + Join(rest);
      assert s == head + "," + tail;
    } else {
      assert Split(s) == [s];
    }
  }

  /** Removing quotes from a concatenation removes them from each part. */
  lemma {:induction false} StripQuotesAppend(a: string, b: string)
    ensures StripQuotes(a + b) == StripQuotes(a) + StripQuotes(b)
  {
    if a != [] {
      assert (a + b)[0] == a[0];
      assert (a + b)[1..] == a[1..] + b;
      StripQuotesAppend(a[1..], b);
    } else {
      assert a + b == b;
    }
  }
}
