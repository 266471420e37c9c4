/**
 One reward stream: a token, a reward token and a kind, with a lazily advanced index. Users accrue only
 when their balance is reported, on the smaller of the last reported and the new balance.
 */
module Incentives {
  import opened Common
  import opened RayMath
  import opened Tokens

  /** `end` is zero for a stream without an end. */
  datatype Config = Config(emission: nat, end: nat, active: bool)

  datatype UserData = UserData(accrued: nat, indexSnapshot: nat, balanceSnapshot: nat)

  /** The stored index with its time, and what is stored per user. */
  datatype Stream = Stream(index: nat, lastUpdate: nat, users: map<Address, UserData>) {
    function Of(user: Address): UserData {
      if user in users then users[user] else UserData(0, RAY, 0)
    }
  }

  // ------------------------------------------------------------------ the index and a user's rewards

  /** The part of the time since the last update that falls before the distribution's end. */
  function EffectiveTime(config: Config, last: nat, now: nat): nat {
    var elapsed := if now > last then now - last else 0;
    if config.end > 0 && now >= config.end then
      if config.end > last then config.end - last else 0
    else if config.end > 0 && config.end > last then
      Min(config.end - last, elapsed)
    else
      elapsed
  }

  /** The index advances by emission per share; without time or shares only the clock moves. */
  function UpdateIndex(config: Config, s: Stream, total: nat, now: nat): Result<Stream> {
    if !config.active then Ok(s.(lastUpdate := now))
    else
      var effective := EffectiveTime(config, s.lastUpdate, now);
      if effective == 0 || total == 0 then Ok(s.(lastUpdate := now))
      else
        var emitted :- Fit(Times(config.emission, effective));
        var increment :- RayDiv(emitted, total);
        var index :- Fit(s.index + increment);
        Ok(s.(index := index, lastUpdate := now))
  }

  function AccruedRewards(current: nat, snapshot: nat, balance: nat): Result<nat> {
    if balance == 0 then Ok(0)
    else if current < snapshot then Err(MathOverflow)
    else RayMul(current - snapshot, balance)
  }

  /** One stream's turn of handle_action, after the token has moved: total and balance are the new ones. */
  function Report(config: Config, s: Stream, user: Address, total: nat, balance: nat, now: nat): Result<Stream> {
    var t :- UpdateIndex(config, s, total, now);
    var d := t.Of(user);
    var counted := if d.balanceSnapshot == 0 then 0 else Min(d.balanceSnapshot, balance);
    var gained :- AccruedRewards(t.index, d.indexSnapshot, counted);
    var accrued :- Fit(d.accrued + gained);
    Ok(t.(users := t.users[user := UserData(accrued, t.index, balance)]))
  }

  /** One stream's settlement in claim_all_rewards, on the total the token answered (zero if it did not). */
  function Settle(config: Config, s: Stream, user: Address, total: nat, now: nat): Result<Stream> {
    if !config.active || total == 0 then Ok(s)
    else
      var t :- UpdateIndex(config, s, total, now);
      var d := t.Of(user);
      var gained :- AccruedRewards(t.index, d.indexSnapshot, d.balanceSnapshot);
      var accrued :- Fit(d.accrued + gained);
      Ok(t.(users := t.users[user := UserData(accrued, t.index, d.balanceSnapshot)]))
  }

  /** Take accrued rewards out of a user's entry. */
  function Take(s: Stream, user: Address, amount: nat): Stream
    requires amount <= s.Of(user).accrued
  {
    if amount == 0 then s
    else s.(users := s.users[user := s.Of(user).(accrued := s.Of(user).accrued - amount)])
  }

  // ------------------------------------------------------------------ runs of one stream

  /** A token and its stream, with what was claimed and a tally of the roundings that may have happened. */
  datatype Market = Market(shares: Scaled, stream: Stream, claimed: nat, updates: nat, totals: nat)

  datatype Step =
    | ToBalance(user: Address, balance: nat)
    | Transfer(from: Address, to: Address, shares: nat)
    | Claim(user: Address, amount: nat)
    | ClaimAll(user: Address, answered: bool)

  /** One report, counted; an index update is counted with the total it divided by. */
  function Reported(config: Config, m: Market, user: Address, now: nat): Result<Market> {
    var _ :- Need(m.shares.total >= 0, MathOverflow);
    var s :- Report(config, m.stream, user, m.shares.total, m.shares.Of(user), now);
    Ok(m.(stream := s, updates := m.updates + 1,
          totals := m.totals + if s.index > m.stream.index then m.shares.total else 0))
  }

  function Settled(config: Config, m: Market, user: Address, total: nat, now: nat): Result<Market> {
    var s :- Settle(config, m.stream, user, total, now);
    Ok(m.(stream := s, updates := m.updates + 1,
          totals := m.totals + if s.index > m.stream.index then total else 0))
  }

  function PaidOut(m: Market, user: Address, amount: nat): Market
    requires amount <= m.stream.Of(user).accrued
  {
    m.(stream := Take(m.stream, user, amount), claimed := m.claimed + amount)
  }

  /**
   One step at a time: the token's shares move, then every change is reported. A transfer writes both
   balances first and then reports the sender before the receiver.
   */
  function Apply(config: Config, m: Market, step: Step, now: nat): Result<Market> {
    match step
    case ToBalance(user, balance) =>
      var shares := Scaled(m.shares.of[user := balance], m.shares.total - m.shares.Of(user) + balance);
      Reported(config, m.(shares := shares), user, now)
    case Transfer(from, to, shares) =>
      var moved :- Move(m.shares, from, to, shares);
      var first :- Reported(config, m.(shares := moved), from, now);
      Reported(config, first, to, now)
    case Claim(user, amount) =>
      var _ :- Need(amount <= m.stream.Of(user).accrued, InsufficientRewards);
      Ok(PaidOut(m, user, amount))
    case ClaimAll(user, answered) =>
      var _ :- Need(m.shares.total >= 0, MathOverflow);
      var settled :- Settled(config, m, user, if answered then m.shares.total else 0, now);
      Ok(PaidOut(settled, user, settled.stream.Of(user).accrued))
  }

  /** A run whose every step succeeds, so that every change was reported, on a clock that never goes back. */
  function Run(config: Config, m: Market, steps: seq<(nat, Step)>): Result<Market>
    decreases |steps|
  {
    if steps == [] then Ok(m)
    else
      var _ :- Need(steps[0].0 >= m.stream.lastUpdate, MathOverflow);
      var next :- Apply(config, m, steps[0].1, steps[0].0);
      Run(config, next, steps[1..])
  }

  /** The stream as configured: nobody has been reported, and the token may already have holders. */
  function NewStream(now: nat): Stream {
    Stream(RAY, now, map[])
  }
}
