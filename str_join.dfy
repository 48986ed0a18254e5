/**
 * Python's `sep.join(parts)`: the parts in order, with `sep` between each
 * two neighbours and nowhere else.
 */
module StrJoin {
  import opened Slices

  /** The summed lengths of `parts`. */
  function TotalLength(parts: seq<string>): nat {
    if parts == [] then 0 else |parts[0]| + TotalLength(parts[1..])
  }

  /** `sep.join(parts)` */
  function Join(sep: string, parts: seq<string>): string {
    if parts == [] then []
    else if |parts| == 1 then parts[0]
    else parts[0] + (sep + Join(sep, parts[1..]))
  }

  /** Joining no parts gives nothing; joining n parts adds n - 1 separators to their lengths. */
  lemma {:induction false} JoinLength(sep: string, parts: seq<string>)
    ensures parts == [] ==> Join(sep, parts) == []
    ensures parts != [] ==> |Join(sep, parts)| == TotalLength(parts) + |sep| * (|parts| - 1)
  {
    if |parts| > 1 {
      JoinLength(sep, parts[1..]);
    }
  }

  /** Where `parts[i]` starts in `Join(sep, parts)`. */
  function Offset(sep: string, parts: seq<string>, i: nat): nat
    requires i <= |parts|
  {
    TotalLength(parts[..i]) + i * |sep|
  }

  /** Dropping the first part moves every later offset back by that part and one separator. */
  lemma OffsetTail(sep: string, parts: seq<string>, i: nat)
    requires 0 < i <= |parts|
    ensures Offset(sep, parts, i) == |parts[0]| + |sep| + Offset(sep, parts[1..], i - 1)
  {
    assert parts[..i][1..] == parts[1..][..i - 1];
  }

  /** Consecutive offsets are one part and one separator apart. */
  lemma {:induction false} OffsetNext(sep: string, parts: seq<string>, i: nat)
    requires i < |parts|
    ensures Offset(sep, parts, i + 1) == Offset(sep, parts, i) + |parts[i]| + |sep|
  {
    if i == 0 {
      assert parts[..1][1..] == [];
    } else {
      OffsetTail(sep, parts, i);
      OffsetTail(sep, parts, i + 1);
      OffsetNext(sep, parts[1..], i - 1);
    }
  }

  /** Each part appears verbatim at its offset. */
  lemma {:induction false} JoinPartAt(sep: string, parts: seq<string>, i: nat)
    requires i < |parts|
    ensures Offset(sep, parts, i) + |parts[i]| <= |Join(sep, parts)|
    ensures Join(sep, parts)[Offset(sep, parts, i)..Offset(sep, parts, i) + |parts[i]|] == parts[i]
  {
    assert parts[..0] == [];
    if |parts| == 1 {
      assert parts[0][0..|parts[0]|] == parts[0];
    } else if i == 0 {
      PrefixSlice(parts[0], sep + Join(sep, parts[1..]), 0, |parts[0]|);
      assert parts[0][0..|parts[0]|] == parts[0];
    } else {
      var tail := Join(sep, parts[1..]);
      var o := Offset(sep, parts[1..], i - 1);
      JoinPartAt(sep, parts[1..], i - 1);
      OffsetTail(sep, parts, i);
      assert Join(sep, parts) == (parts[0] + sep) + tail;
      SuffixSlice(parts[0] + sep, tail, o, o + |parts[i]|);
    }
  }

  /** Between part `i` and part `i + 1` stands exactly one separator. */
  lemma {:induction false} JoinSeparatorAt(sep: string, parts: seq<string>, i: nat)
    requires i + 1 < |parts|
    ensures Offset(sep, parts, i + 1) == Offset(sep, parts, i) + |parts[i]| + |sep|
    ensures Offset(sep, parts, i + 1) <= |Join(sep, parts)|
    ensures Join(sep, parts)[Offset(sep, parts, i) + |parts[i]|..Offset(sep, parts, i + 1)] == sep
  {
    OffsetNext(sep, parts, i);
    JoinPartAt(sep, parts, i + 1);
    var tail := Join(sep, parts[1..]);
    if i == 0 {
      assert parts[..0] == [];
      SuffixSlice(parts[0], sep + tail, 0, |sep|);
      PrefixSlice(sep, tail, 0, |sep|);
      assert sep[0..|sep|] == sep;
    } else {
      var o := Offset(sep, parts[1..], i - 1);
      JoinSeparatorAt(sep, parts[1..], i - 1);
      OffsetTail(sep, parts, i);
      assert Join(sep, parts) == (parts[0] + sep) + tail;
      SuffixSlice(parts[0] + sep, tail, o + |parts[i]|, o + |parts[i]| + |sep|);
    }
  }

  /** Appending a part appends one separator and that part: join read from the left. */
  lemma {:induction false} JoinAppend(sep: string, parts: seq<string>, last: string)
    requires parts != []
    ensures Join(sep, parts + [last]) == Join(sep, parts) + sep + last
  {
    var ps := parts + [last];
    if |parts| == 1 {
      assert ps[1..] == [last];
    } else {
      assert ps[1..] == parts[1..] + [last];
      JoinAppend(sep, parts[1..], last);
      assert Join(sep, ps) == parts[0] + (sep + (Join(sep, parts[1..]) + sep + last));
    }
  }
}
