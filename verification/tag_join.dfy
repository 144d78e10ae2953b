/**
  The shape of the tag string: the `type` texts of a result joined with ", ".
  Join is built the way the client's loop builds it, one element appended at
  a time; JoinRef is an independent right-to-left reading of the same shape,
  and Split is its inverse on texts without commas.
*/
module TagJoin {

  const SEPARATOR: string := ", "

  /** The first `|parts|` texts joined by SEPARATOR, extended at the right end. */
  function Join(parts: seq<string>): string
  {
    if |parts| == 0 then ""
    else if |parts| == 1 then parts[0]
    else Join(parts[..|parts| - 1]) + SEPARATOR + parts[|parts| - 1]
  }

  /** Each text after the first, preceded by its separator. */
  function Separated(parts: seq<string>): string
  {
    if |parts| == 0 then "" else SEPARATOR + parts[0] + Separated(parts[1..])
  }

  /** Reference shape: first text, then every later one after a separator. */
  function JoinRef(parts: seq<string>): string
  {
    if |parts| == 0 then "" else parts[0] + Separated(parts[1..])
  }

  /** Pieces of `s` between occurrences of SEPARATOR, scanning left to right. */
  function Split(s: string): (pieces: seq<string>)
    ensures |pieces| >= 1
    decreases |s|
  {
    if |s| == 0 then [""]
    else if |s| >= 2 && s[0] == ',' && s[1] == ' ' then [""] + Split(s[2..])
    else
      var rest := Split(s[1..]);
      [[s[0]] + rest[0]] + rest[1..]
  }

  lemma {:induction false} SeparatedSnoc(parts: seq<string>, x: string)
    ensures Separated(parts + [x]) == Separated(parts) + SEPARATOR + x
    decreases |parts|
  {
    if |parts| > 0 {
      assert (parts + [x])[1..] == parts[1..] + [x];
      SeparatedSnoc(parts[1..], x);
    }
  }

  /**
    Join agrees with the reference shape: the first text, then each later
    text preceded by ", ", in order; no separator leads or trails.
  */
  lemma {:induction false} JoinMatchesReference(parts: seq<string>)
    ensures Join(parts) == JoinRef(parts)
    decreases |parts|
  {
    if |parts| > 1 {
      var init := parts[..|parts| - 1];
      JoinMatchesReference(init);
      assert init[1..] + [parts[|parts| - 1]] == parts[1..];
      SeparatedSnoc(init[1..], parts[|parts| - 1]);
    }
  }

  /** Text without a comma passes through Split into the first piece. */
  lemma {:induction false} SplitCommaFreePrefix(w: string, u: string)
    requires ',' !in w
    ensures Split(w + u) == [w + Split(u)[0]] + Split(u)[1..]
    decreases |w|
  {
    var su := Split(u);
    if |w| == 0 {
      assert w + u == u && w + su[0] == su[0];
      assert [su[0]] + su[1..] == su;
    } else {
      var s := w + u;
      assert s[0] == w[0] && w[0] != ',';
      assert s[1..] == w[1..] + u;
      SplitCommaFreePrefix(w[1..], u);
      assert Split(s) == [[s[0]] + Split(s[1..])[0]] + Split(s[1..])[1..];
      assert [w[0]] + (w[1..] + su[0]) == w + su[0];
    }
  }

  /** Splitting the joined tag string recovers the texts, when none holds a comma. */
  lemma {:induction false} SplitJoinRef(parts: seq<string>)
    requires |parts| >= 1
    requires forall i :: 0 <= i < |parts| ==> ',' !in parts[i]
    ensures Split(JoinRef(parts)) == parts
    decreases |parts|
  {
    if |parts| == 1 {
      assert JoinRef(parts) == parts[0] + "";
      SplitCommaFreePrefix(parts[0], "");
      assert Split("") == [""] && parts[0] + "" == parts[0];
      assert [parts[0]] == parts;
    } else {
      var tail := JoinRef(parts[1..]);
      assert parts[1..][1..] == parts[2..];
      assert Separated(parts[1..]) == SEPARATOR + tail;
      assert (SEPARATOR + tail)[2..] == tail;
      assert Split(SEPARATOR + tail) == [""] + Split(tail);
      assert JoinRef(parts) == parts[0] + (SEPARATOR + tail);
      SplitCommaFreePrefix(parts[0], SEPARATOR + tail);
      var st := Split(tail);
      assert Split(SEPARATOR + tail)[0] == "" && Split(SEPARATOR + tail)[1..] == st;
      assert parts[0] + "" == parts[0];
      assert Split(JoinRef(parts)) == [parts[0]] + st;
      SplitJoinRef(parts[1..]);
      assert [parts[0]] + parts[1..] == parts;
    }
  }

  /** The join loses nothing: its texts come back out of it, in order. */
  lemma SplitJoin(parts: seq<string>)
    requires |parts| >= 1
    requires forall i :: 0 <= i < |parts| ==> ',' !in parts[i]
    ensures Split(Join(parts)) == parts
  {
    JoinMatchesReference(parts);
    SplitJoinRef(parts);
  }

  /** Join's first text leads and its last text ends the joined string. */
  lemma {:induction false} JoinEnds(parts: seq<string>)
    requires |parts| >= 1
    ensures parts[0] <= Join(parts)
    ensures var j := Join(parts); var l := parts[|parts| - 1];
            |l| <= |j| && j[|j| - |l|..] == l
    decreases |parts|
  {
    if |parts| > 1 {
      var init := parts[..|parts| - 1];
      JoinEnds(init);
      assert init[0] == parts[0];
    }
  }
}
