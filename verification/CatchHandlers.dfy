/** Catch handler lists as the writer lays them out ("encoded_catch_handler_list"). */
module CatchHandlers {
  import opened Bytes
  import opened Leb128
  import opened Streams
  import opened EncodedValues
  import opened DexIr

  function EncodePair(p: TypeAddrPair): seq<Byte> {
    (if p.typeIdx.Some? then Uleb(p.typeIdx.value) else []) + Uleb(p.address)
  }

  function EncodePairs(ps: seq<TypeAddrPair>): seq<Byte> {
    if ps == [] then [] else EncodePair(ps[0]) + EncodePairs(ps[1..])
  }

  /** The signed size: minus the number of typed clauses when a catch-all follows them. */
  function HandlerSize(h: CatchHandler): Int32 {
    ToI32(if h.catchAll then 1 - |h.handlers| else |h.handlers|)
  }

  function EncodeHandler(h: CatchHandler): (s: seq<Byte>)
    ensures |s| > 0
  {
    Sleb(HandlerSize(h)) + EncodePairs(h.handlers)
  }

  /**
    * The handler list after the first `n` handlers have been written: the count, and each handler
    * at its own list offset, in whatever order they come.
    */
  function PlacedHandlers(hs: seq<CatchHandler>, n: nat): (s: seq<Byte>)
    requires n <= |hs|
    ensures |s| > 0
  {
    if n == 0 then Uleb(ToU32(|hs|))
    else Splice(PlacedHandlers(hs, n - 1), hs[n - 1].listOffset, EncodeHandler(hs[n - 1]))
  }

  function HandlerBlock(hs: seq<CatchHandler>): (s: seq<Byte>)
    ensures |s| > 0
  {
    PlacedHandlers(hs, |hs|)
  }
}
