/**
  The Bitcoin light client: a bounded queue of headers that is extended, reorganised when a
  longer branch arrives, and pruned at the front.
 */
module Headers {
  import opened Common
  import opened BitcoinTypes
  import opened Targets

  datatype BlockHeader = BlockHeader(prev: Hash, time: nat, bits: Compact, rest: Bytes)

  datatype Header = Header(height: nat, block: BlockHeader)

  datatype WorkHeader = WorkHeader(header: Header, chainWork: nat)

  /** Block hashes, and whether a block's hash is at most its own target. */
  datatype Miner = Miner(hash: BlockHeader -> Hash, proven: BlockHeader -> bool)

  datatype HeaderConfig = HeaderConfig(
    maxLength: nat,
    retargetInterval: nat,
    retargeting: bool,
    target: TargetConfig)

  predicate ValidConfig(cfg: HeaderConfig) {
    cfg.retargetInterval > 0 && cfg.maxLength > 0 && Mainnet(cfg.target)
  }

  datatype Chain = Chain(headers: seq<WorkHeader>, currentWork: nat)

  function TargetOf(h: Header): nat {
    FromCompact(h.block.bits)
  }

  function WorkOf(h: Header): nat {
    Work(TargetOf(h))
  }

  function QueuedWork(w: WorkHeader): int {
    WorkOf(w.header)
  }

  function Height(hs: seq<WorkHeader>): nat {
    if hs == [] then 0 else hs[|hs| - 1].header.height
  }

  /** The most headers that are relayed at once. */
  const MAX_RELAY: nat := 1000

  // ----- access by height -----

  /** Addresses the queue by the distance from its first header. */
  function GetByHeight(hs: seq<WorkHeader>, height: nat): Result<Option<WorkHeader>> {
    if hs == [] then Err(Rejected)
    else if height < hs[0].header.height then Err(Rejected)
    else
      var i := height - hs[0].header.height;
      Ok(if i < |hs| then Some(hs[i]) else None)
  }

  function Find(hs: seq<WorkHeader>, height: nat): Result<WorkHeader> {
    var found :- GetByHeight(hs, height);
    if found.None? then Err(Rejected) else Ok(found.value)
  }

  // ----- median time -----

  function InsertTime(x: int, s: seq<int>): seq<int> {
    if s == [] || x <= s[0] then [x] + s else [s[0]] + InsertTime(x, s[1..])
  }

  function SortTimes(s: seq<int>): seq<int> {
    if s == [] then [] else InsertTime(s[0], SortTimes(s[1..]))
  }

  const MEDIAN_SPAN: nat := 11

  /** The times of the last eleven of the first `n` headers. */
  function LastTimes(hs: seq<WorkHeader>, n: nat): (ts: seq<int>)
    requires MEDIAN_SPAN <= n <= |hs|
    ensures |ts| == MEDIAN_SPAN
    ensures forall i :: 0 <= i < MEDIAN_SPAN ==> ts[i] == hs[n - MEDIAN_SPAN + i].header.block.time
  {
    seq(MEDIAN_SPAN, i requires 0 <= i < MEDIAN_SPAN => hs[n - MEDIAN_SPAN + i].header.block.time)
  }

  /** `validate_time`, on a queue that holds at least eleven headers. */
  predicate TimeOk(hs: seq<WorkHeader>, time: nat) {
    |hs| >= MEDIAN_SPAN ==>
      var sorted := SortTimes(LastTimes(hs, |hs|));
      |sorted| > 5 && time > sorted[5]
  }

  // ----- the expected target -----

  function NextTarget(cfg: HeaderConfig, hs: seq<WorkHeader>, h: Header, prev: Header): Result<nat>
    requires ValidConfig(cfg)
  {
    if h.height % cfg.retargetInterval != 0 || !cfg.retargeting then Ok(TargetOf(prev))
    else if prev.height < cfg.retargetInterval then Err(Rejected)
    else
      var first :- Find(hs, SatSub(h.height, cfg.retargetInterval));
      var elapsed :- Minus(prev.block.time, first.header.block.time);
      Ok(Retargeted(cfg.target, TargetOf(prev), Span(cfg, elapsed)))
  }

  function Span(cfg: HeaderConfig, elapsed: nat): nat {
    Clamp(elapsed, cfg.target.timespan / 4, cfg.target.timespan * 4)
  }

  // ----- adding headers -----

  /** One more header on top of `prev`. */
  function AddOne(m: Miner, cfg: HeaderConfig, c: Chain, prev: Header, h: Header): Result<Chain>
    requires ValidConfig(cfg)
  {
    if h.height != prev.height + 1 || h.block.prev != m.hash(prev.block) then Err(Rejected)
    else if !TimeOk(c.headers, h.block.time) then Err(Rejected)
    else
      var target :- NextTarget(cfg, c.headers, h, prev);
      if TargetOf(h) != target || !m.proven(h.block) then Err(Rejected) else
      var work := c.currentWork + WorkOf(h);
      Ok(Chain(c.headers + [WorkHeader(h, work)], work))
  }

  /** The first `n` of the new headers, each checked against the one before it. */
  function AddAll(m: Miner, cfg: HeaderConfig, c: Chain, prev: Header, added: seq<Header>, n: nat): Result<Chain>
    requires ValidConfig(cfg) && n <= |added|
  {
    if n == 0 then Ok(c) else
    var front :- AddAll(m, cfg, c, prev, added, n - 1);
    AddOne(m, cfg, front, if n == 1 then prev else added[n - 2], added[n - 1])
  }

  function HeaderWork(h: Header): int {
    WorkOf(h)
  }

  function VerifyAndAdd(m: Miner, cfg: HeaderConfig, c: Chain, added: seq<Header>): Result<Chain>
    requires ValidConfig(cfg)
  {
    if added == [] || added[0].height == 0 then Err(Rejected) else
    var prev :- Find(c.headers, added[0].height - 1);
    AddAll(m, cfg, c, prev.header, added, |added|)
  }

  // ----- reorganisation and pruning -----

  /** How many of the first `n` headers stay below `height`. */
  function KeepBelow(hs: seq<WorkHeader>, n: nat, height: nat): (r: Result<nat>)
    requires n <= |hs|
    ensures r.Ok? ==> r.value <= n
  {
    if n == 0 then (if height == 0 then Err(Rejected) else Ok(0))
    else if hs[n - 1].header.height < height then Ok(n)
    else KeepBelow(hs, n - 1, height)
  }

  /** `pop_back_to`; the work counter stays as it is. */
  function PopBackTo(c: Chain, height: nat): Result<Chain> {
    var k :- KeepBelow(c.headers, |c.headers|, height);
    Ok(c.(headers := Range(c.headers, 0, k)))
  }

  /** The queue the new headers are put on. */
  function Rewound(m: Miner, c: Chain, first: Header): Result<Chain> {
    if first.height > Height(c.headers) then Ok(c) else
    var replaced :- Find(c.headers, first.height);
    if m.hash(replaced.header.block) == m.hash(first.block) then Err(Rejected) else
    PopBackTo(c, first.height)
  }

  /** The number of headers to drop at the front. */
  function Surplus(cfg: HeaderConfig, n: nat): nat {
    SatSub(n, cfg.maxLength)
  }

  function PruneFront(cfg: HeaderConfig, c: Chain): Chain {
    var k := Surplus(cfg, |c.headers|);
    Chain(Suffix(c.headers, k), SatSub(c.currentWork, WorkOfFirst(c.headers, k)))
  }

  /** The work of the first `k` headers. */
  function WorkOfFirst(hs: seq<WorkHeader>, k: nat): (w: nat)
    requires k <= |hs|
    ensures w == SumTo(hs, k, QueuedWork)
  {
    if k == 0 then 0 else WorkOfFirst(hs, k - 1) + WorkOf(hs[k - 1].header)
  }

  /** The chain before pruning. */
  function Extended(m: Miner, cfg: HeaderConfig, c: Chain, added: seq<Header>): Result<Chain>
    requires ValidConfig(cfg)
  {
    if added == [] then Err(Rejected) else
    var base :- Rewound(m, c, added[0]);
    var longer :- VerifyAndAdd(m, cfg, base, added);
    if Sum(added, HeaderWork) <= Sum(c.headers, QueuedWork) - Sum(base.headers, QueuedWork) then Err(Rejected)
    else Ok(longer)
  }

  /** `add_into_iter`. */
  function Add(m: Miner, cfg: HeaderConfig, c: Chain, added: seq<Header>): Result<Chain>
    requires ValidConfig(cfg)
  {
    var longer :- Extended(m, cfg, c, added);
    if longer.currentWork < WorkOfFirst(longer.headers, Surplus(cfg, |longer.headers|)) then Err(Overflow)
    else Ok(PruneFront(cfg, longer))
  }

  /** `configure`: the queue holds the trusted header. */
  function Configured(trusted: Header): Chain {
    Chain([WorkHeader(trusted, WorkOf(trusted))], WorkOf(trusted))
  }
}
