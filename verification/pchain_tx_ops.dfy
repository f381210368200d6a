/** server/mapper/pchain/tx_ops.go: the buckets a parse collects its operations in. */
module PChainTxOps {
  import opened Rosetta
  import opened PChain

  /** The contents of the five buckets. */
  datatype Buckets = Buckets(
    ins: seq<POperation>, outs: seq<POperation>, stakeOuts: seq<POperation>,
    importIns: seq<POperation>, exportOuts: seq<POperation>)
  {
    function Included(): seq<POperation> {
      ins + outs + stakeOuts
    }

    function OutputLen(): nat {
      |outs| + |stakeOuts|
    }
  }

  const EMPTY: Buckets := Buckets([], [], [], [], [])

  /** Imported inputs and exported outputs of a block are kept apart and lose their index for now. */
  predicate KeptApart(construction: bool, metaType: MetaType) {
    !construction && (metaType == ImportType || metaType == ExportType)
  }

  /** The buckets after appending operations of one type, each numbered when it was built. */
  function Into(b: Buckets, construction: bool, metaType: MetaType, ops: seq<POperation>): Buckets {
    var next := |b.Included()|;
    match metaType
    case ImportType =>
      if construction then b.(ins := b.ins + Indexed(ops, next)) else b.(importIns := b.importIns + ops)
    case ExportType =>
      if construction then b.(outs := b.outs + Indexed(ops, next)) else b.(exportOuts := b.exportOuts + ops)
    case StakeType => b.(stakeOuts := b.stakeOuts + Indexed(ops, next))
    case RewardType => b.(stakeOuts := b.stakeOuts + Indexed(ops, next))
    case OutputType => b.(outs := b.outs + Indexed(ops, next))
    case InputType => b.(ins := b.ins + Indexed(ops, next))
  }

  class TxOps {
    const construction: bool
    var ins: seq<POperation>
    var outs: seq<POperation>
    var stakeOuts: seq<POperation>
    var importIns: seq<POperation>
    var exportOuts: seq<POperation>

    constructor (construction: bool)
      ensures View() == EMPTY && this.construction == construction
    {
      this.construction := construction;
      ins, outs, stakeOuts, importIns, exportOuts := [], [], [], [], [];
    }

    ghost function View(): Buckets
      reads this
    {
      Buckets(ins, outs, stakeOuts, importIns, exportOuts)
    }

    function IncludedOperations(): (r: seq<POperation>)
      reads this
      ensures r == View().Included()
    {
      ins + outs + stakeOuts
    }

    function Len(): (r: nat)
      reads this
      ensures r == |View().Included()|
    {
      |ins| + |outs| + |stakeOuts|
    }

    function OutputLen(): (r: nat)
      reads this
      ensures r == View().OutputLen()
    {
      |outs| + |stakeOuts|
    }

    /** Appends an operation that carries the index Len gave. */
    method Append(op: POperation, metaType: MetaType)
      requires op.index == Some(Len())
      modifies this
      ensures View() == Into(old(View()), construction, metaType, [op.(index := None)])
    {
      match metaType {
        case ImportType =>
          if construction {
            ins := ins + [op];
          } else {
            importIns := importIns + [op.(index := None)];
          }
        case ExportType =>
          if construction {
            outs := outs + [op];
          } else {
            exportOuts := exportOuts + [op.(index := None)];
          }
        case StakeType => stakeOuts := stakeOuts + [op];
        case RewardType => stakeOuts := stakeOuts + [op];
        case OutputType => outs := outs + [op];
        case InputType => ins := ins + [op];
      }
    }
  }

  lemma IndexedAppend(a: seq<POperation>, b: seq<POperation>, start: nat)
    ensures Indexed(a, start) + Indexed(b, start + |a|) == Indexed(a + b, start)
  {
  }

  lemma IncludedAfter(b: Buckets, construction: bool, metaType: MetaType, ops: seq<POperation>)
    ensures |Into(b, construction, metaType, ops).Included()| ==
      |b.Included()| + if KeptApart(construction, metaType) then 0 else |ops|
  {
    hide Indexed;
  }

  lemma IntoTwice(b: Buckets, construction: bool, metaType: MetaType, ops: seq<POperation>, op: POperation)
    ensures Into(Into(b, construction, metaType, ops), construction, metaType, [op])
         == Into(b, construction, metaType, ops + [op])
  {
    hide Indexed;
    IndexedAppend(ops, [op], |b.Included()|);
    IncludedAfter(b, construction, metaType, ops);
    if KeptApart(construction, metaType) {
      assert forall x: seq<POperation> :: (x + ops) + [op] == x + (ops + [op]);
    } else {
      var next := |b.Included()|;
      assert forall x: seq<POperation> :: (x + Indexed(ops, next)) + Indexed([op], next + |ops|) == x + Indexed(ops + [op], next);
    }
  }

  lemma IntoNothing(b: Buckets, construction: bool, metaType: MetaType)
    ensures Into(b, construction, metaType, []) == b
  {
  }
}
