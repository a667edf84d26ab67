/** The seven tetromino blocks, reduced to the one attribute the queue and the
    shell inspect: the `Id` that selects a block's tile and preview images. */
module Blocks {

  datatype Block = Block(id: int)

  // Ids 1..7 index the tile and preview image tables (index 0 is the empty tile).
  const IBlock := Block(1)
  const JBlock := Block(2)
  const LBlock := Block(3)
  const OBlock := Block(4)
  const SBlock := Block(5)
  const TBlock := Block(6)
  const ZBlock := Block(7)

  /** The queue's fixed catalogue, in its declaration order. */
  const Catalogue: seq<Block> := [IBlock, JBlock, LBlock, OBlock, SBlock, TBlock, ZBlock]

  /** Whatever block was handed out last, the catalogue holds a block with a
      different id, so redrawing until the id changes can succeed. */
  lemma OtherIdInCatalogue(b: Block)
    ensures exists i :: 0 <= i < |Catalogue| && Catalogue[i].id != b.id
  {
    if b.id == Catalogue[0].id {
      assert Catalogue[1].id != b.id;
    } else {
      assert Catalogue[0].id != b.id;
    }
  }
}
