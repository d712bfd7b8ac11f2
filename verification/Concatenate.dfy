/**
 The view of two buffer sequences as one, through an iterator with a cursor in each of them, and
 the framing of a datagram as a header followed by the payload.
 */
module Concatenation {
  import opened Wrappers
  import opened Wire

  class Iterator<T(==)> {
    const left: seq<T>
    const right: seq<T>
    var leftCurrent: nat
    var rightCurrent: nat

    ghost predicate Valid()
      reads this
    {
      leftCurrent <= |left| && rightCurrent <= |right| && (leftCurrent < |left| ==> rightCurrent == 0)
    }

    /** The number of elements already passed. */
    ghost function Position(): nat
      reads this
    {
      leftCurrent + rightCurrent
    }

    constructor (left: seq<T>, leftCurrent: nat, right: seq<T>, rightCurrent: nat)
      requires leftCurrent <= |left| && rightCurrent <= |right| && (leftCurrent < |left| ==> rightCurrent == 0)
      ensures Valid() && this.left == left && this.right == right
      ensures this.leftCurrent == leftCurrent && this.rightCurrent == rightCurrent
    {
      this.left, this.leftCurrent, this.right, this.rightCurrent := left, leftCurrent, right, rightCurrent;
    }

    method PreIncrement()
      requires Valid() && Position() < |left| + |right|
      modifies this
      ensures Valid() && Position() == old(Position()) + 1
    {
      if leftCurrent != |left| {
        leftCurrent := leftCurrent + 1;
      } else {
        rightCurrent := rightCurrent + 1;
      }
    }

    /** Moves on and returns an iterator for the position it left. */
    method PostIncrement() returns (before: Iterator<T>)
      requires Valid() && Position() < |left| + |right|
      modifies this
      ensures Valid() && Position() == old(Position()) + 1
      ensures fresh(before) && before.Valid() && before.left == left && before.right == right
      ensures before.leftCurrent == old(leftCurrent) && before.rightCurrent == old(rightCurrent)
    {
      before := new Iterator(left, leftCurrent, right, rightCurrent);
      if leftCurrent != |left| {
        leftCurrent := leftCurrent + 1;
      } else {
        rightCurrent := rightCurrent + 1;
      }
    }

    method Dereference() returns (value: T)
      requires Valid() && Position() < |left| + |right|
      ensures value == (left + right)[Position()]
    {
      value := if leftCurrent != |left| then left[leftCurrent] else right[rightCurrent];
    }

    method Equals(other: Iterator<T>) returns (r: bool)
      requires Valid() && other.Valid() && left == other.left && right == other.right
      ensures r <==> Position() == other.Position()
    {
      r := leftCurrent == other.leftCurrent && rightCurrent == other.rightCurrent;
    }
  }

  method Begin<T(==)>(left: seq<T>, right: seq<T>) returns (i: Iterator<T>)
    ensures fresh(i) && i.Valid() && i.left == left && i.right == right && i.Position() == 0
  {
    i := new Iterator(left, 0, right, 0);
  }

  method End<T(==)>(left: seq<T>, right: seq<T>) returns (i: Iterator<T>)
    ensures fresh(i) && i.Valid() && i.left == left && i.right == right && i.Position() == |left| + |right|
  {
    i := new Iterator(left, |left|, right, |right|);
  }

  /** Visiting everything from begin to end takes one step per element and yields left, then right. */
  method Traverse<T(==)>(left: seq<T>, right: seq<T>) returns (visited: seq<T>, steps: nat)
    ensures visited == left + right
    ensures steps == |left| + |right|
  {
    var i := Begin(left, right);
    var end := End(left, right);
    visited, steps := [], 0;
    var done := i.Equals(end);
    while !done
      invariant fresh(i) && fresh(end) && i != end
      invariant i.Valid() && end.Valid() && i.left == end.left == left && i.right == end.right == right
      invariant end.Position() == |left| + |right|
      invariant steps == i.Position() <= |left| + |right|
      invariant visited == (left + right)[..steps]
      invariant done <==> i.Position() == end.Position()
      decreases |left| + |right| - i.Position()
    {
      var value := i.Dereference();
      visited, steps := visited + [value], steps + 1;
      i.PreIncrement();
      done := i.Equals(end);
    }
  }

  /** The bytes of a sequence of buffers, as one datagram. */
  function Gathered(buffers: seq<seq<byte>>): seq<byte> {
    if buffers == [] then [] else buffers[0] + Gathered(buffers[1..])
  }

  lemma {:induction false} GatheredAppend(a: seq<seq<byte>>, b: seq<seq<byte>>)
    ensures Gathered(a + b) == Gathered(a) + Gathered(b)
  {
    if a == [] {
      assert a + b == b;
    } else {
      assert (a + b)[1..] == a[1..] + b;
      GatheredAppend(a[1..], b);
    }
  }

  /** A datagram: the encoded header in front of the payload buffers. */
  method Frame(h: Header, payload: seq<seq<byte>>) returns (datagram: seq<byte>)
    ensures datagram == Encoded(h) + Gathered(payload)
  {
    var header := new byte[HEADER_SIZE];
    var encoder := new Encoder(header);
    Encode(h, encoder);
    assert encoder.begin == HEADER_SIZE;
    assert header[..HEADER_SIZE] == [] + Encoded(h);
    assert header[..] == header[..HEADER_SIZE];
    var buffers, steps := Traverse([header[..]], payload);
    GatheredAppend([header[..]], payload);
    assert Gathered([header[..]]) == header[..] + Gathered([]);
    datagram := Gathered(buffers);
  }

  function Least(a: nat, b: nat): nat {
    if a < b then a else b
  }

  /** A buffer after the beginning of some bytes was read into it. */
  function Filled(rest: seq<byte>, before: seq<byte>): seq<byte> {
    var n := Least(|rest|, |before|);
    rest[..n] + before[n..]
  }

  /** The bytes of a datagram fill buffers one after the other; what does not fit is lost. */
  function Scattered(datagram: seq<byte>, contents: seq<seq<byte>>): (r: seq<seq<byte>>)
    ensures |r| == |contents| && forall i :: 0 <= i < |r| ==> |r[i]| == |contents[i]|
  {
    if contents == [] then []
    else
      [Filled(datagram, contents[0])] + Scattered(datagram[Least(|datagram|, |contents[0]|)..], contents[1..])
  }

  /** One buffer, and the others read as one. */
  lemma GatherOne(datagram: seq<byte>, first: seq<byte>, others: seq<byte>)
    ensures var m, n := Least(|datagram|, |first|), Least(|datagram|, |first| + |others|);
            var k := Least(|datagram| - m, |others|);
            Filled(datagram, first) + (datagram[m..][..k] + others[k..]) == datagram[..n] + (first + others)[n..]
  {
    if |datagram| <= |first| {
      GatherFits(datagram, first, others);
    } else {
      GatherOverflows(datagram, first, others);
    }
  }

  lemma GatherFits(datagram: seq<byte>, first: seq<byte>, others: seq<byte>)
    requires |datagram| <= |first|
    ensures var d := |datagram|;
            (datagram + first[d..]) + others == datagram + (first + others)[d..]
  {
  }

  lemma GatherOverflows(datagram: seq<byte>, first: seq<byte>, others: seq<byte>)
    requires |datagram| > |first|
    ensures var m, n := |first|, Least(|datagram|, |first| + |others|);
            datagram[..m] + (datagram[m..][..n - m] + others[n - m..]) == datagram[..n] + (first + others)[n..]
  {
    var m, n := |first|, Least(|datagram|, |first| + |others|);
    assert datagram[..n] == datagram[..m] + datagram[m..][..n - m];
    assert (first + others)[n..] == others[n - m..];
  }

  /** Read as one, scattered buffers hold the datagram as far as it fits, and then what they held before. */
  lemma {:induction false} GatherScattered(datagram: seq<byte>, contents: seq<seq<byte>>)
    ensures var n := Least(|datagram|, |Gathered(contents)|);
            Gathered(Scattered(datagram, contents)) == datagram[..n] + Gathered(contents)[n..]
  {
    if contents != [] {
      var m := Least(|datagram|, |contents[0]|);
      GatherScattered(datagram[m..], contents[1..]);
      GatherOne(datagram, contents[0], Gathered(contents[1..]));
    }
  }

  function Contents(buffers: seq<array<byte>>): (r: seq<seq<byte>>)
    reads buffers
    ensures |r| == |buffers| && forall i :: 0 <= i < |r| ==> r[i] == buffers[i][..]
  {
    seq(|buffers|, i requires 0 <= i < |buffers| reads buffers => buffers[i][..])
  }

  predicate Distinct(buffers: seq<array<byte>>) {
    forall i, j :: 0 <= i < j < |buffers| ==> buffers[i] != buffers[j]
  }

  /** Overwrites the beginning of a buffer. */
  method Fill(buffer: array<byte>, bytes: seq<byte>)
    requires |bytes| <= buffer.Length
    modifies buffer
    ensures buffer[..] == bytes + old(buffer[..])[|bytes|..]
  {
    forall i | 0 <= i < |bytes| {
      buffer[i] := bytes[i];
    }
  }

  lemma ScatterOne(rest: seq<byte>, before: seq<seq<byte>>, i: nat)
    requires i < |before|
    ensures Scattered(rest, before[i..])
         == [Filled(rest, before[i])] + Scattered(rest[Least(|rest|, |before[i]|)..], before[i + 1..])
  {
    assert before[i..][0] == before[i] && before[i..][1..] == before[i + 1..];
  }

  lemma Regroup<T>(front: seq<T>, middle: T, back: seq<T>)
    ensures front + ([middle] + back) == (front + [middle]) + back
  {
  }

  /** The first buffers hold what the datagram left in them, the others what they held before. */
  ghost predicate Half(buffers: seq<array<byte>>, before: seq<seq<byte>>, done: seq<seq<byte>>)
    reads buffers
  {
    && |done| <= |buffers| == |before|
    && (forall k :: 0 <= k < |done| ==> buffers[k][..] == done[k])
    && (forall k :: |done| <= k < |buffers| ==> buffers[k][..] == before[k])
  }

  lemma HalfIsWhole(buffers: seq<array<byte>>, before: seq<seq<byte>>, done: seq<seq<byte>>)
    requires Half(buffers, before, done) && |done| == |buffers|
    ensures Contents(buffers) == done
  {
  }

  method FillNext(buffers: seq<array<byte>>, i: nat, rest: seq<byte>,
                  ghost before: seq<seq<byte>>, ghost done: seq<seq<byte>>)
    returns (left: seq<byte>)
    requires Distinct(buffers) && Half(buffers, before, done) && |done| == i < |buffers|
    modifies buffers[i]
    ensures Half(buffers, before, done + [Filled(rest, before[i])])
    ensures left == rest[Least(|rest|, |before[i]|)..]
  {
    var n := Least(|rest|, buffers[i].Length);
    assert |before[i]| == buffers[i].Length;
    Fill(buffers[i], rest[..n]);
    left := rest[n..];
  }

  /** What is done, followed by what is still to be scattered, is the whole result. */
  ghost predicate Progressed(all: seq<seq<byte>>, done: seq<seq<byte>>, rest: seq<byte>, before: seq<seq<byte>>) {
    |done| <= |before| && done + Scattered(rest, before[|done|..]) == all
  }

  lemma ProgressesOn(all: seq<seq<byte>>, done: seq<seq<byte>>, rest: seq<byte>, before: seq<seq<byte>>)
    requires Progressed(all, done, rest, before) && |done| < |before|
    ensures var next := before[|done|];
            Progressed(all, done + [Filled(rest, next)], rest[Least(|rest|, |next|)..], before)
  {
    var i := |done|;
    ScatterOne(rest, before, i);
    Regroup(done, Filled(rest, before[i]), Scattered(rest[Least(|rest|, |before[i]|)..], before[i + 1..]));
  }

  /** The next buffer takes what fits of the rest of the datagram. */
  method ScatterNext(buffers: seq<array<byte>>, i: nat, rest: seq<byte>, ghost all: seq<seq<byte>>,
                     ghost before: seq<seq<byte>>, ghost done: seq<seq<byte>>)
    returns (left: seq<byte>, ghost more: seq<seq<byte>>)
    requires Distinct(buffers) && Half(buffers, before, done) && |done| == i < |buffers|
    requires Progressed(all, done, rest, before)
    modifies buffers[i]
    ensures |more| == i + 1 && Half(buffers, before, more) && Progressed(all, more, left, before)
  {
    ProgressesOn(all, done, rest, before);
    left := FillNext(buffers, i, rest, before, done);
    more := done + [Filled(rest, before[i])];
  }

  lemma Finished(buffers: seq<array<byte>>, all: seq<seq<byte>>, done: seq<seq<byte>>, rest: seq<byte>,
                 before: seq<seq<byte>>)
    requires Half(buffers, before, done) && |done| == |buffers| && Progressed(all, done, rest, before)
    ensures Contents(buffers) == all
  {
    HalfIsWhole(buffers, before, done);
  }

  /** A datagram is read into a sequence of buffers. */
  method Scatter(datagram: seq<byte>, buffers: seq<array<byte>>)
    requires Distinct(buffers)
    modifies buffers
    ensures Contents(buffers) == Scattered(datagram, old(Contents(buffers)))
  {
    var rest := datagram;
    ghost var before, done := Contents(buffers), [];
    ghost var all := Scattered(datagram, before);
    for i := 0 to |buffers|
      invariant |done| == i && Half(buffers, before, done) && Progressed(all, done, rest, before)
    {
      rest, done := ScatterNext(buffers, i, rest, all, before, done);
    }
    Finished(buffers, all, done, rest, before);
  }

  lemma ContentsFirst(first: array<byte>, others: seq<array<byte>>)
    ensures Contents([first] + others) == [first[..]] + Contents(others)
  {
  }

  /** The header takes the first twelve bytes, the payload buffers the rest. */
  lemma HeaderFirst(datagram: seq<byte>, header: seq<byte>, payload: seq<seq<byte>>)
    requires |header| == HEADER_SIZE <= |datagram|
    ensures Scattered(datagram, [header] + payload)
         == [datagram[..HEADER_SIZE]] + Scattered(datagram[HEADER_SIZE..], payload)
  {
    assert ([header] + payload)[1..] == payload;
    assert Filled(datagram, header) == datagram[..HEADER_SIZE];
  }

  lemma SplitFirst<T>(first: T, others: seq<T>, all: seq<T>)
    requires all == [first] + others
    ensures all != [] && all[0] == first && all[1..] == others
  {
  }

  /** A received datagram, read into a header and a buffer of its own for the payload. */
  method Unframe(datagram: seq<byte>) returns (h: Option<Header>, payload: seq<byte>)
    requires |datagram| >= HEADER_SIZE
    ensures h == Decoded(datagram[..HEADER_SIZE]) && payload == datagram[HEADER_SIZE..]
  {
    var buffer := new byte[|datagram| - HEADER_SIZE];
    h := UnframeInto(datagram, [buffer]);
    payload := buffer[..];
  }

  /** A datagram is read into the concatenated view of a header and payload buffers. */
  method ReadInto(datagram: seq<byte>, header: array<byte>, buffers: seq<array<byte>>)
    requires |datagram| >= HEADER_SIZE == header.Length && Distinct([header] + buffers)
    modifies [header] + buffers
    ensures header[..] == datagram[..HEADER_SIZE]
    ensures Contents(buffers) == Scattered(datagram[HEADER_SIZE..], old(Contents(buffers)))
  {
    var view, steps := Traverse([header], buffers);
    ContentsFirst(header, buffers);
    HeaderFirst(datagram, header[..], Contents(buffers));
    ghost var read := Scattered(datagram, Contents(view));
    SplitFirst(datagram[..HEADER_SIZE], Scattered(datagram[HEADER_SIZE..], Contents(buffers)), read);
    Scatter(datagram, view);
    ContentsFirst(header, buffers);
    SplitFirst(header[..], Contents(buffers), read);
  }

  lemma DistinctFirst(first: array<byte>, others: seq<array<byte>>)
    requires Distinct(others) && first !in others
    ensures Distinct([first] + others)
  {
  }

  method DecodeHeader(header: seq<byte>) returns (h: Option<Header>)
    requires |header| == HEADER_SIZE
    ensures h == Decoded(header)
  {
    var decoder := new Decoder(header);
    h := Decode(decoder);
    assert header[..HEADER_SIZE] == header;
  }

  /** A received datagram, read into a header and the buffers of a waiting receive, which may be too small. */
  method UnframeInto(datagram: seq<byte>, buffers: seq<array<byte>>) returns (h: Option<Header>)
    requires |datagram| >= HEADER_SIZE && Distinct(buffers)
    modifies buffers
    ensures h == Decoded(datagram[..HEADER_SIZE])
    ensures Contents(buffers) == Scattered(datagram[HEADER_SIZE..], old(Contents(buffers)))
  {
    ghost var before := Contents(buffers);
    var header := new byte[HEADER_SIZE];
    assert Contents(buffers) == before;
    DistinctFirst(header, buffers);
    ReadInto(datagram, header, buffers);
    h := DecodeHeader(header[..]);
  }

  /** A waiting receive holds the whole payload if and only if its buffers are large enough. */
  lemma PayloadFitsIff(payload: seq<byte>, contents: seq<seq<byte>>)
    ensures payload <= Gathered(Scattered(payload, contents)) <==> |payload| <= |Gathered(contents)|
    ensures var received := Gathered(Scattered(payload, contents));
            && |received| == |Gathered(contents)|
            && forall i :: 0 <= i < |received| && i < |payload| ==> received[i] == payload[i]
  {
    GatherScattered(payload, contents);
  }

  /** Splitting a frame after the header restores the header and the payload. */
  lemma FramingRoundTrip(h: Header, payload: seq<seq<byte>>)
    ensures var datagram := Encoded(h) + Gathered(payload);
            && |datagram| >= HEADER_SIZE
            && Decoded(datagram[..HEADER_SIZE]) == Some(Normalized(h))
            && datagram[HEADER_SIZE..] == Gathered(payload)
  {
    HeaderRoundTrip(h);
    assert (Encoded(h) + Gathered(payload))[..HEADER_SIZE] == Encoded(h);
  }
}
