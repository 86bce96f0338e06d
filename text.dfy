/** Python's `str.join`, the only string-building operation the envelope classifiers use. */
module Text {

  /** `sep.join(parts)` */
  function Join(sep: string, parts: seq<string>): string
    decreases |parts|
  {
    if |parts| == 0 then ""
    else if |parts| == 1 then parts[0]
    else parts[0] + sep + Join(sep, parts[1..])
  }

  /** `part in s` for strings: `part` occurs in `s` as a contiguous run. */
  ghost predicate Contains(s: string, part: string) {
    exists before, after :: before + part + after == s
  }

  /** Joining two strings puts the separator between them. */
  lemma JoinPair(sep: string, a: string, b: string)
    ensures Join(sep, [a, b]) == a + sep + b
  {
    assert [a, b][1..] == [b];
  }

  /** Joining can be split at any element boundary. */
  lemma {:induction false} JoinSplit(sep: string, parts: seq<string>, i: nat)
    requires 0 < i < |parts|
    ensures Join(sep, parts) == Join(sep, parts[..i]) + sep + Join(sep, parts[i..])
    decreases i
  {
    if i == 1 {
      assert parts[..1] == [parts[0]];
    } else {
      var tail := parts[1..];
      JoinSplit(sep, tail, i - 1);
      assert tail[..i - 1] == parts[..i][1..];
      assert tail[i - 1..] == parts[i..];
    }
  }

  /** Every joined part occurs in the joined string. */
  lemma {:induction false} JoinContains(sep: string, parts: seq<string>, i: nat)
    requires i < |parts|
    ensures Contains(Join(sep, parts), parts[i])
  {
    var before := if i == 0 then "" else Join(sep, parts[..i]) + sep;
    var after := if i + 1 < |parts| then sep + Join(sep, parts[i + 1..]) else "";
    if i + 1 < |parts| {
      assert parts[i..][1..] == parts[i + 1..];
    }
    assert Join(sep, parts[i..]) == parts[i] + after;
    if i > 0 {
      JoinSplit(sep, parts, i);
    }
    assert Join(sep, parts) == before + parts[i] + after;
  }
}
