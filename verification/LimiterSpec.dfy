/** The whole limiter of internal/app/ratelimit.go as a value: the accounts of
    every client, the shared overflow account, and what each locked section
    does to them. */
module LimiterSpec {
  import opened RateWindow
  import opened Requests
  import opened Accounts

  datatype Config = Config(
    tokens: map<string, Plan>,
    anonymous: Option<Plan>,
    weights: CostWeights,
    perSecond: real,
    rates: EffortRates,
    maxKeys: nat)
  {
    /** planOf, and the plan Identify bills: none for a token not configured,
        or for no token when there is no anonymous plan. */
    function PlanOf(c: Client): Option<Plan> {
      match c
      case Token(name) => if name in tokens then Some(tokens[name]) else None
      case Ip(_) => anonymous
    }

    predicate Knows(c: Client) {
      PlanOf(c).Some?
    }

    function TermsOf(c: Client): Terms
      requires Knows(c)
    {
      Terms(PlanOf(c).value, weights, perSecond, rates)
    }

    /** Weights and the meter's price are checked when the configuration loads. */
    predicate Valid() {
      perSecond >= 0.0 && forall k :: k in weights ==> weights[k] >= 0.0
    }
  }

  datatype State<T(==)> = State(keys: map<Client, Account<T>>, overflow: Option<Account<T>>)

  function Empty<T>(): State<T> {
    State(map[], None)
  }

  function AccountIn<T>(m: map<Client, Account<T>>, c: Client): Account<T> {
    if c in m then m[c] else Fresh()
  }

  /** A new anonymous client shares the overflow account once MaxKeys clients
      are tracked. */
  predicate Crowded<T>(cfg: Config, s: State<T>, c: Client) {
    c.Ip? && c !in s.keys && |s.keys| >= cfg.maxKeys
  }

  /** The account key() bills an admission to. */
  function AccountFor<T>(cfg: Config, s: State<T>, c: Client): Account<T> {
    if Crowded(cfg, s, c) then (if s.overflow.Some? then s.overflow.value else Fresh())
    else AccountIn(s.keys, c)
  }

  function Place<T>(cfg: Config, s: State<T>, c: Client, a: Account<T>): State<T> {
    if Crowded(cfg, s, c) then s.(overflow := Some(a)) else s.(keys := s.keys[c := a])
  }

  function SweptKeys<T>(cfg: Config, keys: map<Client, Account<T>>, now: int): map<Client, Account<T>> {
    map c | c in keys && cfg.Knows(c) && !Forgettable(cfg.TermsOf(c).plan, keys[c], now)
      :: SweptAccount(cfg.TermsOf(c).plan, keys[c], now)
  }

  /** The overflow account goes the same way, once there is room for new clients. */
  function SweptOverflow<T>(cfg: Config, overflow: Option<Account<T>>, tracked: nat, now: int): Option<Account<T>> {
    if overflow.Some? && cfg.anonymous.Some? && overflow.value.flights == map[] && tracked < cfg.maxKeys
    then (if Forgettable(cfg.anonymous.value, overflow.value, now) then None
          else Some(SweptAccount(cfg.anonymous.value, overflow.value, now)))
    else overflow
  }

  function SweepNext<T>(cfg: Config, s: State<T>, now: int): State<T> {
    var keys := SweptKeys(cfg, s.keys, now);
    State(keys, SweptOverflow(cfg, s.overflow, |keys|, now))
  }

  /** The overflow account's own name. No admission is under it: requests reach
      the account through Place, and later events through their tickets. */
  const SHARED := Ip("overflow")

  ghost function EachNext<T>(cfg: Config, s: State<T>, e: Event<T>): State<T>
    requires !e.Admit? && !e.Sweep?
  {
    State(
      map c | c in s.keys :: if cfg.Knows(c) then Next(cfg.TermsOf(c), c, s.keys[c], e) else s.keys[c],
      if s.overflow.Some? && cfg.anonymous.Some? && !e.Save?
      then Some(Next(cfg.TermsOf(SHARED), SHARED, s.overflow.value, e)) else s.overflow)
  }

  ghost function LimiterNext<T>(cfg: Config, s: State<T>, e: Event<T>): State<T> {
    match e
    case Admit(c, ask, t, now) =>
      if !cfg.Knows(c) || Refused(cfg.TermsOf(c).plan, ask).Some? then s
      else Place(cfg, s, c, AdmitNext(cfg.TermsOf(c).plan, AccountFor(cfg, s, c), ask, t, now))
    case Sweep(now) => SweepNext(cfg, s, now)
    case _ => EachNext(cfg, s, e)
  }

  ghost function LimiterRun<T>(cfg: Config, s: State<T>, es: seq<Event<T>>): State<T> {
    if |es| == 0 then s else LimiterNext(cfg, LimiterRun(cfg, s, es[..|es| - 1]), es[|es| - 1])
  }

  /** Whose account it is: a client's own, or the one the crowded share. */
  datatype Holder = Own(client: Client) | Shared {
    function Name(): Client {
      if Own? then client else SHARED
    }
  }

  predicate Covers(cfg: Config, h: Holder) {
    cfg.Knows(h.Name())
  }

  /** The account as it stands, a new one when none is kept. */
  function Held<T>(s: State<T>, h: Holder): Account<T> {
    match h
    case Own(c) => AccountIn(s.keys, c)
    case Shared => if s.overflow.Some? then s.overflow.value else Fresh()
  }

  /** Who is billed for an admission of the client. */
  function HolderOf<T>(cfg: Config, s: State<T>, c: Client): Holder {
    if Crowded(cfg, s, c) then Shared else Own(c)
  }

  /** What is seen of an event: by each client the outcome of its admission and
      what is saved of it, and for the requests in flight on each account, the
      shared one included, their answers, bills and cancellations. */
  ghost function Seen<T(!new)>(cfg: Config, s: State<T>, e: Event<T>): imap<Holder, Output<T>> {
    imap h: Holder | Covers(cfg, h) && Facing(cfg, s, h, e) != Silent :: Facing(cfg, s, h, e)
  }

  ghost function Facing<T>(cfg: Config, s: State<T>, h: Holder, e: Event<T>): Output<T>
    requires Covers(cfg, h)
  {
    if h.Shared? && (e.Admit? || e.Save?) then Silent
    else Observe(cfg.TermsOf(h.Name()), h.Name(), if e.Admit? then AccountFor(cfg, s, h.client) else Held(s, h), e)
  }

  // ------------------------------------------------------- save and load

  type StateFile = map<Client, (Bucket, Bucket)>

  /** What save writes: the accounts not full, what is owed counted as spent. */
  ghost function FileOf<T>(cfg: Config, s: State<T>, now: int): StateFile {
    map c | c in s.keys && cfg.Knows(c) && SaveEntry(cfg.TermsOf(c).plan, s.keys[c], now).Some?
      :: SaveEntry(cfg.TermsOf(c).plan, s.keys[c], now).value
  }

  function Stored<T>(entry: (Bucket, Bucket)): Account<T> {
    Account(entry.0, entry.1, map[])
  }

  function Lower(a: Bucket, b: Bucket): Bucket {
    a.(level := Min(a.level, b.level))
  }

  /** A saved account, refilled; one already seen since the start keeps the
      lower of the two levels. */
  function LoadedAccount<T>(p: Plan, m: map<Client, Account<T>>, c: Client, entry: (Bucket, Bucket), now: int): Account<T> {
    var saved: Account<T> := Refill(p, Stored(entry), now);
    if c in m then
      var k := Refill(p, m[c], now);
      k.(minute := Lower(k.minute, saved.minute), day := Lower(k.day, saved.day))
    else saved
  }

  /** load: a client whose token or plan is gone is dropped. */
  function LoadNext<T>(cfg: Config, s: State<T>, file: StateFile, now: int): State<T> {
    s.(keys := map c | c in s.keys.Keys + file.Keys && (c in s.keys || cfg.Knows(c)) ::
         if c in file && cfg.Knows(c) then LoadedAccount(cfg.TermsOf(c).plan, s.keys, c, file[c], now)
         else s.keys[c])
  }
}
