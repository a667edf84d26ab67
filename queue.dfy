/** The next-piece queue: it hands out the buffered block and refills the
    buffer from the catalogue, redrawing until the new block's id differs from
    the one just handed out. */
module Queue {
  import opened Wrappers
  import opened Blocks

  /** The catalogue entry that one sample of the random source selects:
      `blocks[random.Next(blocks.Length)]`. */
  function Pick(sample: int): (b: Block)
    ensures b in Catalogue
  {
    Catalogue[sample % |Catalogue|]
  }

  /** Some sample at or after `pos` selects a block whose id differs from
      `last`'s: the redraw loop then ends. */
  predicate DiffersLater(last: Block, samples: seq<int>, pos: nat) {
    exists k :: pos <= k < |samples| && Pick(samples[k]).id != last.id
  }

  /** The sample that ends the redraw loop: the first at or after `pos` whose
      block has an id other than `last`'s. */
  function FirstDifferent(last: Block, samples: seq<int>, pos: nat): (k: nat)
    requires DiffersLater(last, samples, pos)
    ensures pos <= k < |samples|
    ensures Pick(samples[k]).id != last.id
    ensures forall j :: pos <= j < k ==> Pick(samples[j]).id == last.id
    decreases |samples| - pos
  {
    if Pick(samples[pos]).id != last.id then pos
    else FirstDifferent(last, samples, pos + 1)
  }

  /** The random source admits `n` successive calls of `GetAndUpdate` from a
      buffer holding `next`, with `pos` samples consumed. */
  predicate CanDeal(next: Block, samples: seq<int>, pos: nat, n: nat)
    decreases n
  {
    n == 0 ||
    (DiffersLater(next, samples, pos) &&
     var k := FirstDifferent(next, samples, pos);
     CanDeal(Pick(samples[k]), samples, k + 1, n - 1))
  }

  /** The blocks that `n` successive calls of `GetAndUpdate` hand out. */
  function Deal(next: Block, samples: seq<int>, pos: nat, n: nat): (r: seq<Block>)
    requires CanDeal(next, samples, pos, n)
    ensures |r| == n
    ensures n > 0 ==> r[0] == next
    ensures forall i :: 1 <= i < n ==> r[i] in Catalogue
    ensures forall i :: 0 <= i < n - 1 ==> r[i].id != r[i + 1].id
    decreases n
  {
    if n == 0 then []
    else
      var k := FirstDifferent(next, samples, pos);
      [next] + Deal(Pick(samples[k]), samples, k + 1, n - 1)
  }

  /** `System.Random`, replaced by an oracle: the samples it will produce, in
      order, and how many of them have been consumed. */
  class Random {
    const samples: seq<int>
    var pos: nat

    constructor (samples: seq<int>)
      ensures this.samples == samples && pos == 0
    {
      this.samples := samples;
      pos := 0;
    }

    /** `Next(maxValue)`: a value in [0, maxValue), or 0 when maxValue is 0. */
    method Next(maxValue: int) returns (r: int)
      requires 0 <= maxValue
      requires pos < |samples|
      modifies this
      ensures pos == old(pos) + 1
      ensures 0 <= r && (maxValue > 0 ==> r < maxValue) && (maxValue == 0 ==> r == 0)
      ensures maxValue > 0 ==> r == samples[old(pos)] % maxValue
    {
      r := if maxValue == 0 then 0 else samples[pos] % maxValue;
      pos := pos + 1;
    }
  }

  class BlockQueue {
    const blocks: array<Block>
    const random: Random
    /** `NextBlock`; `None` is the `null` it holds until first drawn. */
    var next: Option<Block>

    /** The catalogue is intact and the buffered block comes from it. */
    ghost predicate Valid()
      reads this, blocks
    {
      blocks[..] == Catalogue &&
      (next.Some? ==> next.value in Catalogue)
    }

    /** The random source can serve the next call of `GetAndUpdate`. */
    ghost predicate CanDraw()
      reads this, random
    {
      match next
      case None => random.pos < |random.samples|
      case Some(b) => DiffersLater(b, random.samples, random.pos)
    }

    /** As written: the buffer is left unset. */
    constructor (samples: seq<int>)
      ensures Valid() && fresh(blocks) && fresh(random)
      ensures next == None
      ensures random.samples == samples && random.pos == 0
    {
      blocks := new Block[] [IBlock, JBlock, LBlock, OBlock, SBlock, TBlock, ZBlock];
      random := new Random(samples);
      next := None;
    }

    /** As intended: the buffer is seeded with one draw before first use. */
    constructor Seeded(samples: seq<int>)
      requires |samples| > 0
      ensures Valid() && fresh(blocks) && fresh(random)
      ensures next == Some(Pick(samples[0]))
      ensures random.samples == samples && random.pos == 1
    {
      blocks := new Block[] [IBlock, JBlock, LBlock, OBlock, SBlock, TBlock, ZBlock];
      random := new Random(samples);
      next := None;
      new;
      var b := RandomBlock();
      next := Some(b);
    }

    /** One catalogue entry, chosen by the next sample. */
    method RandomBlock() returns (b: Block)
      requires Valid()
      requires random.pos < |random.samples|
      modifies random
      ensures random.pos == old(random.pos) + 1
      ensures b == Pick(random.samples[old(random.pos)])
      ensures b in blocks[..]
    {
      var i := random.Next(blocks.Length);
      b := blocks[i];
    }

    /** Hands out the buffered block and refills the buffer with a block of a
        different id. With the buffer unset, the first draw happens and then
        reading the id of the handed-out `null` raises. */
    method GetAndUpdate() returns (r: Result<Block>)
      requires Valid() && CanDraw()
      modifies this, random
      ensures Valid()
      ensures old(next).None? ==>
        r == Err(NullReference) &&
        next == Some(Pick(random.samples[old(random.pos)])) &&
        random.pos == old(random.pos) + 1
      ensures old(next).Some? ==>
        var k := FirstDifferent(old(next).value, random.samples, old(random.pos));
        r == Ok(old(next).value) &&
        next == Some(Pick(random.samples[k])) &&
        random.pos == k + 1
      ensures r.Ok? ==> next.Some? && next.value.id != r.value.id
    {
      var block := next;
      var b := RandomBlock();
      next := Some(b);
      if block.None? {
        return Err(NullReference);
      }
      ghost var start := old(random.pos);
      ghost var k := FirstDifferent(block.value, random.samples, start);
      while block.value.id == next.value.id
        invariant Valid()
        invariant start < random.pos <= k + 1
        invariant next == Some(Pick(random.samples[random.pos - 1]))
        decreases k + 1 - random.pos
      {
        b := RandomBlock();
        next := Some(b);
      }
      r := Ok(block.value);
    }
  }

  /** As written, the first call on a freshly constructed queue raises: the
      constructor never seeds the buffer. */
  method FreshQueueFirstDraw(samples: seq<int>) returns (r: Result<Block>)
    requires |samples| > 0
    ensures r == Err(NullReference)
  {
    var q := new BlockQueue(samples);
    r := q.GetAndUpdate();
  }

  /** From a seeded queue, two successive calls hand out the first two blocks
      `Deal` describes, and their ids differ. */
  method SeededQueueTwoDraws(samples: seq<int>) returns (first: Block, second: Block)
    requires |samples| > 0 && CanDeal(Pick(samples[0]), samples, 1, 2)
    ensures [first, second] == Deal(Pick(samples[0]), samples, 1, 2)
    ensures first.id != second.id
  {
    var q := new BlockQueue.Seeded(samples);
    var r := q.GetAndUpdate();
    first := r.value;
    r := q.GetAndUpdate();
    second := r.value;
  }
}
