/**
 Record shapes shared by the graph builder and the pipeline: transfers,
 money-flow dictionaries, address labels, edge attributes and the flat flow
 records of the address index. Monetary amounts are exact `real`s.
 */
module Records {

  /** A blockchain address; strings are sequences of code points. */
  type Address = string

  /** A directed (from, to) address pair: the key of a graph edge. */
  type Edge = (Address, Address)

  datatype Option<T> = None | Some(value: T) {
    /** The value, or `default` when the key was absent. */
    function GetOr(default: T): T {
      match this
      case Some(v) => v
      case None => default
    }
  }

  /** One ledger transfer event. */
  datatype Transfer = Transfer(
    txId: string,
    eventIndex: string,
    edgeIndex: string,
    blockHeight: int,
    blockTimestamp: int,
    fromAddress: Address,
    toAddress: Address,
    assetSymbol: string,
    assetContract: string,
    amount: real,
    amountUsd: real,
    fee: real)

  /**
   A money-flow record as the builder consumes it: a dictionary whose
   `amount_usd_sum` and `tx_count` keys may be missing.
   */
  datatype FlowRecord = FlowRecord(
    fromAddress: Address,
    toAddress: Address,
    amountUsdSum: Option<real>,
    txCount: Option<int>)

  /** External attribution of an address. */
  datatype AddressLabel = AddressLabel(
    address: Address,
    labelText: string,
    addressType: string,
    trustLevel: string,
    source: string)

  /** The attribute dictionary the builder stores on every edge. */
  datatype EdgeAttrs = EdgeAttrs(weight: real, amountUsdSum: real, txCount: int)

  /** The flat flow record the address index re-derives from an edge. */
  datatype IndexedFlow = IndexedFlow(
    fromAddress: Address,
    toAddress: Address,
    amountUsdSum: real,
    txCount: int)

  /** The ordered pair a flow record contributes as an edge key. */
  function PairOf(f: FlowRecord): Edge {
    (f.fromAddress, f.toAddress)
  }

  /** Set of the elements of a sequence. */
  function Elems<T>(s: seq<T>): set<T> {
    set x | x in s
  }

  lemma ElemsOfNonEmpty<T>(s: seq<T>)
    ensures s != [] ==> s[0] in Elems(s)
  {
  }

  /** No element occurs twice. */
  predicate NoDup<T(==)>(s: seq<T>) {
    forall i, j :: 0 <= i < j < |s| ==> s[i] != s[j]
  }
}
