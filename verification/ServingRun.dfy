/** Whole runs of the serving loop, under any interleaving of clients, ticks, passes and crashes. */
module ServingRun {
  import opened Basics
  import opened Tokens
  import opened PoolSpec
  import opened CacheSpec
  import opened RadixSpec
  import opened RadixUpdate
  import opened RadixInsertEvict
  import opened ServingState
  import opened ServingCore
  import opened Serving
  import opened ServingAdmit
  import opened ServingForward

  datatype Action =
    | Submit(prompt: seq<Token>, maxTokens: int, eos: Token)
    | Abort(id: nat)
    | Start(order: seq<nat>)
    | Pass
    | Fail(k: nat, junk: (nat, nat) -> Cell)

  function NewSys(cfg: Config, n: nat): Sys {
    Sys([], [], [], {}, NewPool(n), seq(n, _ => seq(cfg.bs, _ => 0)), EMPTY, [], 0, Idle, false)
  }

  lemma NewSysInv(cfg: Config, n: nat)
    requires ConfigOk(cfg)
    ensures Inv(cfg, NewSys(cfg, n)) && Funded(cfg, NewSys(cfg, n))
  {
    hide Core;
    NewPoolOk(n);
    NewCore(cfg, n);
    var s := NewSys(cfg, n);
    assert s.running + s.waiting == [];
  }

  lemma NewCore(cfg: Config, n: nat)
    requires ConfigOk(cfg)
    ensures Core(cfg, NewPool(n), EMPTY, [], [], -1, [])
  {
    hide Shape, LruOk, PoolOk, Entry;
    NewPoolOk(n);
    EmptyHoldsNothing();
    EmptyStays([], 0);
    assert PinsOk(EMPTY, []);
    assert Handles([]) + [] == [];
    var p := NewPool(n);
    forall b: nat ensures Owners(EMPTY, [], b) + Count([], b) == if b < |p.ref| then p.ref[b] else 0 {}
  }

  /** The request a client submits. */
  function NewReq(s: Sys, prompt: seq<Token>, maxTokens: int, eos: Token): Req {
    Req(s.nextId, prompt, [], maxTokens, eos, Waiting, FRESH, None, 0)
  }

  lemma SubmitKeeps(cfg: Config, s: Sys, r: Req)
    requires ConfigOk(cfg) && Inv(cfg, s) && Parked(r) && r.id == s.nextId
    ensures Inv(cfg, s.(waiting := s.waiting + [r], nextId := s.nextId + 1))
  {
    hide Core;
    var u := s.(waiting := s.waiting + [r], nextId := s.nextId + 1);
    assert u.running + u.waiting == (s.running + s.waiting) + [r];
  }

  lemma AbortKeeps(cfg: Config, s: Sys, id: nat)
    requires ConfigOk(cfg) && Inv(cfg, s)
    ensures Inv(cfg, s.(aborted := s.aborted + {id}))
  {
    hide Core;
  }

  lemma FundedFrame(cfg: Config, s: Sys, u: Sys)
    requires ConfigOk(cfg) && Funded(cfg, s) && u.running == s.running && u.pool == s.pool && u.pc == s.pc && u.lost == s.lost
    ensures Funded(cfg, u)
  {}

  /** One step. A step that is not possible in the current state changes nothing. */
  function Step(cfg: Config, s: Sys, a: Action): (u: Sys)
    requires ConfigOk(cfg) && Inv(cfg, s) && (s.fault || Funded(cfg, s))
    ensures Inv(cfg, u) && (u.fault || Funded(cfg, u))
  {
    hide Inv, Funded;
    if s.fault then s
    else match a
      case Submit(prompt, maxTokens, eos) =>
        if prompt == [] then s
        else
          var r := NewReq(s, prompt, maxTokens, eos);
          var u := s.(waiting := s.waiting + [r], nextId := s.nextId + 1);
          SubmitKeeps(cfg, s, r);
          FundedFrame(cfg, s, u);
          u
      case Abort(id) =>
        AbortKeeps(cfg, s, id);
        FundedFrame(cfg, s, s.(aborted := s.aborted + {id}));
        s.(aborted := s.aborted + {id})
      case Start(order) =>
        if s.pc.Idle? && (set i | 0 <= i < |order| :: order[i]) == s.aborted then
          Tick(cfg, s, order)
        else s
      case Pass =>
        if s.pc.Idle? then s
        else
          IdleFunded(cfg, Forward(cfg, s));
          Forward(cfg, s)
      case Fail(k, junk) =>
        if s.pc.Idle? then s
        else
          IdleFunded(cfg, Crash(cfg, s, k, junk));
          Crash(cfg, s, k, junk)
  }

  lemma IdleFunded(cfg: Config, s: Sys)
    requires ConfigOk(cfg)
    ensures s.pc.Idle? ==> Funded(cfg, s)
  {}

  /** The state after a sequence of actions from a fresh pool of `n` blocks. */
  function Run(cfg: Config, n: nat, acts: seq<Action>): (s: Sys)
    requires ConfigOk(cfg)
    ensures Inv(cfg, s) && (s.fault || Funded(cfg, s))
    decreases |acts|
  {
    hide Inv, Funded;
    if acts == [] then NewSysInv(cfg, n); NewSys(cfg, n)
    else Step(cfg, Run(cfg, n, acts[..|acts| - 1]), acts[|acts| - 1])
  }
}
