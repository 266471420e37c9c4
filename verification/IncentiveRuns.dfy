/**
 Lazy rewards conserve emission: over every run of one stream kept active at one rate, what users have
 accrued and claimed together never exceeds what was emitted, up to half a unit per user update and
 half a share-total per index update, both in the last digit.
 */
module IncentiveRuns {
  import opened Common
  import opened RayMath
  import opened Totals
  import opened Tokens
  import opened Incentives

  // ------------------------------------------------------------------ effective time

  /** The emission clock: it stops at the distribution's end. */
  function Clock(config: Config, t: nat): nat {
    if config.end == 0 then t else Min(t, config.end)
  }

  /** The effective time of an update is the clock's advance, so updates telescope. */
  lemma EffectiveTelescopes(config: Config, last: nat, now: nat)
    requires last <= now
    ensures EffectiveTime(config, last, now) == Clock(config, now) - Clock(config, last)
    ensures Clock(config, last) <= Clock(config, now)
  {
  }

  /**
   Twice an index update's worth, over all shares, against twice what was emitted meanwhile: never more than half
   the shares above it, and, for an active stream with shares, less than half the shares below it.
   */
  lemma IndexWorth(config: Config, s: Stream, total: nat, now: nat)
    requires s.lastUpdate <= now && UpdateIndex(config, s, total, now).Ok?
    ensures var t := UpdateIndex(config, s, total, now).value;
            && t.index >= s.index && t.users == s.users && t.lastUpdate == now
            && 2 * Times(t.index - s.index, total)
               <= 2 * Times(Times(config.emission, Clock(config, now) - Clock(config, s.lastUpdate)), RAY)
                  + (if t.index > s.index then total else 0)
            && (config.active && total > 0 ==>
                  2 * Times(t.index - s.index, total) + total
                  > 2 * Times(Times(config.emission, Clock(config, now) - Clock(config, s.lastUpdate)), RAY))
            && (!config.active || total == 0 ==> t.index == s.index)
  {
    EffectiveTelescopes(config, s.lastUpdate, now);
    var effective := EffectiveTime(config, s.lastUpdate, now);
    var t := UpdateIndex(config, s, total, now).value;
    if config.active && effective > 0 && total > 0 {
      var emitted := Times(config.emission, effective);
      assert t.index - s.index == DivNear(emitted, total);
      if t.index == s.index {
        assert Times(0, total) == 0;
      }
    } else {
      assert Times(0, total) == 0;
      assert effective == 0 ==> Times(config.emission, effective) == 0 && Times(0, RAY) == 0;
    }
  }

  lemma TimesLeft(a: nat, b: nat, c: nat)
    ensures Times(a + b, c) == Times(a, c) + Times(b, c)
  {
  }

  lemma TimesRight(a: nat, b: nat, c: nat)
    ensures Times(a, b + c) == Times(a, b) + Times(a, c)
  {
  }

  lemma TimesCommutes(a: nat, b: nat)
    ensures Times(a, b) == Times(b, a)
  {
  }

  // ------------------------------------------------------------------ the potential

  /** Per-user columns of the stored data, and the product of the two snapshots. */
  ghost function Accruals(users: map<Address, UserData>): map<Address, nat> {
    map u | u in users :: users[u].accrued
  }

  ghost function Snapshots(users: map<Address, UserData>): map<Address, nat> {
    map u | u in users :: users[u].balanceSnapshot
  }

  ghost function Products(users: map<Address, UserData>): map<Address, nat> {
    map u | u in users :: Times(users[u].indexSnapshot, users[u].balanceSnapshot)
  }

  /** RAY times everything accrued or claimed, plus everything pending at the stored index. */
  ghost function Potential(m: Market): int {
    Times(RAY, Sum(Accruals(m.stream.users)) + m.claimed)
    + Times(m.stream.index, Sum(Snapshots(m.stream.users))) - Sum(Products(m.stream.users))
  }

  /** Stored snapshots trail the index and, but for one user about to be reported, the true balances. */
  ghost predicate TrailingBut(m: Market, user: Address) {
    && Backed(m.shares) && m.stream.index >= RAY
    && (forall u :: u in m.stream.users ==> m.stream.users[u].indexSnapshot <= m.stream.index)
    && (forall u :: u in m.stream.users && u != user ==> m.stream.users[u].balanceSnapshot <= m.shares.Of(u))
  }

  ghost predicate Trailing(m: Market) {
    && Backed(m.shares) && m.stream.index >= RAY
    && (forall u :: u in m.stream.users ==> m.stream.users[u].indexSnapshot <= m.stream.index)
    && (forall u :: u in m.stream.users ==> m.stream.users[u].balanceSnapshot <= m.shares.Of(u))
  }

  function Emitted(config: Config, from: nat, to: nat): nat
    requires Clock(config, from) <= Clock(config, to)
  {
    Times(Times(config.emission, Clock(config, to) - Clock(config, from)), RAY)
  }

  /** Twice what was emitted on the clock from `start`, and twice the potential within it and the tally. */
  ghost predicate WithinEmission(config: Config, m: Market, start: nat) {
    && start <= m.stream.lastUpdate
    && Clock(config, start) <= Clock(config, m.stream.lastUpdate)
    && 2 * Potential(m) <= 2 * Emitted(config, start, m.stream.lastUpdate) + Times(RAY, m.updates) + m.totals
  }

  lemma ColumnUpdate(users: map<Address, UserData>, user: Address, d: UserData)
    ensures var was := if user in users then users[user] else UserData(0, RAY, 0);
            && Sum(Accruals(users[user := d])) == Sum(Accruals(users)) - was.accrued + d.accrued
            && Sum(Snapshots(users[user := d])) == Sum(Snapshots(users)) - was.balanceSnapshot + d.balanceSnapshot
            && Sum(Products(users[user := d]))
               == Sum(Products(users)) - Times(was.indexSnapshot, was.balanceSnapshot) + Times(d.indexSnapshot,
                   d.balanceSnapshot)
  {
    assert Accruals(users[user := d]) == Accruals(users)[user := d.accrued];
    assert Snapshots(users[user := d]) == Snapshots(users)[user := d.balanceSnapshot];
    assert Products(users[user := d]) == Products(users)[user := Times(d.indexSnapshot, d.balanceSnapshot)];
    SumUpdate(Accruals(users), user, d.accrued);
    SumUpdate(Snapshots(users), user, d.balanceSnapshot);
    SumUpdate(Products(users), user, Times(d.indexSnapshot, d.balanceSnapshot));
    assert Times(RAY, 0) == 0;
  }

  /** Pending rewards are never negative. */
  lemma {:induction false} ProductsBelowIndex(users: map<Address, UserData>, index: nat)
    requires forall u :: u in users ==> users[u].indexSnapshot <= index
    ensures Sum(Products(users)) <= Times(index, Sum(Snapshots(users)))
    decreases |users|
  {
    if users == map[] {
      assert Products(users) == map[] && Snapshots(users) == map[];
    } else {
      hide Times;
      var u :| u in users;
      var rest := users - {u};
      ProductsBelowIndex(rest, index);
      assert Products(users) - {u} == Products(rest) && Snapshots(users) - {u} == Snapshots(rest);
      SumSplit(Products(users), u);
      SumSplit(Snapshots(users), u);
      var d := users[u];
      TimesLeft(d.indexSnapshot, index - d.indexSnapshot, d.balanceSnapshot);
      TimesRight(index, d.balanceSnapshot, Sum(Snapshots(rest)));
    }
  }

  // ------------------------------------------------------------------ one user update

  /** The counted shares of the updated user and everyone's stored snapshots fit in the token's total. */
  lemma CountedFits(m: Market, user: Address, counted: nat)
    requires Backed(m.shares) && counted <= m.shares.Of(user)
    requires forall u :: u in m.stream.users && u != user ==> m.stream.users[u].balanceSnapshot <= m.shares.Of(u)
    ensures Sum(Snapshots(m.stream.users)) - m.stream.Of(user).balanceSnapshot + counted <= m.shares.total
  {
    var column := Snapshots(m.stream.users);
    SumUpdate(column, user, counted);
    SumMonotone(column[user := counted], m.shares.of);
  }

  /**
   The arithmetic of one update, with `gain` the rounded reward: the index rises by `rise`, the user's
   pending part is replaced, and the potential grows by at most the rise over the counted shares.
   */
  lemma UpdateArithmetic(index: nat, rise: nat, snapshot: nat, held: nat, counted: nat, next: nat, gain: nat, sum: nat)
    requires snapshot <= index && counted <= held <= sum
    requires Times(gain, RAY) <= Times(index + rise - snapshot, counted) + HALF_RAY
    ensures Times(gain, RAY) + Times(index + rise, sum - held + next) - Times(index + rise, next) + Times(snapshot,
        held)
            <= Times(index, sum) + Times(rise, sum - held + counted) + HALF_RAY
  {
    hide Times;
    var top := index + rise;
    var (rest, idle, span) := (sum - held, held - counted, index - snapshot);
    TimesRight(top, rest, next);
    TimesRight(top, rest, held);
    TimesLeft(index, rise, sum);
    TimesRight(rise, rest + counted, idle);
    TimesLeft(snapshot, top - snapshot, held);
    TimesRight(top - snapshot, counted, idle);
    TimesLeft(span, rise, idle);
  }

  lemma SnapshotBelowSum(s: Stream, user: Address)
    ensures s.Of(user).balanceSnapshot <= Sum(Snapshots(s.users))
  {
    SumBoundsEntry(Snapshots(s.users), user);
  }

  lemma GainBound(index: nat, snapshot: nat, counted: nat, gain: nat)
    requires snapshot <= index && AccruedRewards(index, snapshot, counted) == Ok(gain)
    ensures Times(gain, RAY) <= Times(index - snapshot, counted) + HALF_RAY
    ensures Times(index - snapshot, counted) <= Times(gain, RAY) + HALF_RAY
  {
    if counted == 0 {
      assert Times(0, RAY) == 0 && Times(index - snapshot, 0) == 0;
    }
  }

  /**
   What one report does to the stream: the reported user gains the index rise since its last report on the smaller of
   its two balances, to within half a unit, is up to date, and nobody else's entry changes.
   */
  lemma ReportPays(config: Config, s: Stream, user: Address, total: nat, balance: nat, now: nat)
    requires s.lastUpdate <= now && s.Of(user).indexSnapshot <= s.index
    requires Report(config, s, user, total, balance, now).Ok?
    ensures var (t, d) := (Report(config, s, user, total, balance, now).value, s.Of(user));
            && UpdateIndex(config, s, total, now) == Ok(t.(users := s.users))
            && t.index >= s.index && t.Of(user).indexSnapshot == t.index && t.Of(user).balanceSnapshot == balance
            && (forall other :: other != user ==> t.Of(other) == s.Of(other))
            && var (gain, worth) := (t.Of(user).accrued - d.accrued,
                                     Times(t.index - d.indexSnapshot, Min(d.balanceSnapshot, balance)));
               gain >= 0 && Times(gain, RAY) - HALF_RAY <= worth <= Times(gain, RAY) + HALF_RAY
  {
    hide UpdateIndex, AccruedRewards, Times;
    IndexWorth(config, s, total, now);
    var t := UpdateIndex(config, s, total, now).value;
    var d := s.Of(user);
    var counted := Min(d.balanceSnapshot, balance);
    GainBound(t.index, d.indexSnapshot, counted, AccruedRewards(t.index, d.indexSnapshot, counted).value);
  }

  /** The potential after the user's entry is replaced, written out. */
  lemma PotentialStep(m: Market, s: Stream, user: Address, balance: nat, gain: nat)
    requires var d := m.stream.Of(user);
             s.users == m.stream.users[user := UserData(d.accrued + gain, s.index, balance)]
    requires Sum(Snapshots(m.stream.users)) >= m.stream.Of(user).balanceSnapshot
    ensures var d := m.stream.Of(user);
            var sum := Sum(Snapshots(m.stream.users));
            Potential(m.(stream := s)) - Potential(m)
            == Times(gain, RAY) + Times(s.index, sum - d.balanceSnapshot + balance)
               - Times(s.index, balance) + Times(d.indexSnapshot, d.balanceSnapshot)
               - Times(m.stream.index, sum)
  {
    hide Accruals, Snapshots, Products, Times;
    var d := m.stream.Of(user);
    ColumnUpdate(m.stream.users, user, UserData(d.accrued + gain, s.index, balance));
    TimesRight(RAY, Sum(Accruals(m.stream.users)) + m.claimed, gain);
    TimesCommutes(RAY, gain);
  }

  lemma RiseOverCounted(rise: nat, counted: nat, total: nat)
    requires counted <= total
    ensures Times(rise, counted) <= Times(rise, total)
  {
    assert rise * (total - counted) >= 0;
  }

  /** What a report or a settlement does to the potential. */
  lemma UserUpdateWorth(config: Config, m: Market, user: Address, balance: nat, now: nat, s: Stream)
    requires m.stream.lastUpdate <= now && m.shares.total >= 0 && TrailingBut(m, user)
    requires Min(m.stream.Of(user).balanceSnapshot, balance) <= m.shares.Of(user)
    requires Report(config, m.stream, user, m.shares.total, balance, now) == Ok(s)
    ensures s.index >= m.stream.index && s.lastUpdate == now
    ensures Clock(config, m.stream.lastUpdate) <= Clock(config, now)
    ensures 2 * Potential(m.(stream := s))
         <= 2 * Potential(m) + RAY
            + 2 * Emitted(config, m.stream.lastUpdate, now)
            + if s.index > m.stream.index then m.shares.total else 0
  {
    hide Times, Potential, Backed, Snapshots, UpdateIndex, Clock, AccruedRewards;
    EffectiveTelescopes(config, m.stream.lastUpdate, now);
    IndexWorth(config, m.stream, m.shares.total, now);
    var t := UpdateIndex(config, m.stream, m.shares.total, now).value;
    var d := m.stream.Of(user);
    var counted := if d.balanceSnapshot == 0 then 0 else Min(d.balanceSnapshot, balance);
    var gain := AccruedRewards(t.index, d.indexSnapshot, counted).value;
    var rise := t.index - m.stream.index;
    var sum := Sum(Snapshots(m.stream.users));
    GainBound(t.index, d.indexSnapshot, counted, gain);
    CountedFits(m, user, counted);
    SnapshotBelowSum(m.stream, user);
    UpdateArithmetic(m.stream.index, rise, d.indexSnapshot, d.balanceSnapshot, counted, balance, gain, sum);
    RiseOverCounted(rise, sum - d.balanceSnapshot + counted, m.shares.total);
    PotentialStep(m, s, user, balance, gain);
  }

  // ------------------------------------------------------------------ runs

  lemma EmissionAdds(config: Config, start: nat, middle: nat, end: nat)
    requires Clock(config, start) <= Clock(config, middle) <= Clock(config, end)
    ensures Emitted(config, start, end) == Emitted(config, start, middle) + Emitted(config, middle, end)
  {
    hide Times, Clock;
    TimesRight(config.emission, Clock(config, middle) - Clock(config, start), Clock(config, end) - Clock(config,
        middle));
    TimesLeft(Times(config.emission, Clock(config, middle) - Clock(config, start)),
              Times(config.emission, Clock(config, end) - Clock(config, middle)), RAY);
  }

  lemma StoredTrails(config: Config, m: Market, user: Address, balance: nat, now: nat, s: Stream)
    requires m.stream.lastUpdate <= now && m.shares.total >= 0 && TrailingBut(m, user) && balance <= m.shares.Of(user)
    requires Report(config, m.stream, user, m.shares.total, balance, now) == Ok(s)
    ensures forall n, k :: Trailing(m.(stream := s, updates := n, totals := k))
  {
    hide Times, UpdateIndex, EffectiveTime, AccruedRewards, Backed;
    IndexWorth(config, m.stream, m.shares.total, now);
  }

  /** A user update, whatever the balance it stores, stays within emission. */
  lemma UpdateWithinEmission(config: Config, m: Market, user: Address, balance: nat, now: nat, s: Stream, start: nat)
    requires m.stream.lastUpdate <= now && m.shares.total >= 0 && TrailingBut(m, user)
    requires WithinEmission(config, m, start)
    requires balance <= m.shares.Of(user)
    requires Report(config, m.stream, user, m.shares.total, balance, now) == Ok(s)
    ensures var next := m.(stream := s, updates := m.updates + 1,
                           totals := m.totals + if s.index > m.stream.index then m.shares.total else 0);
            Trailing(next) && WithinEmission(config, next, start) && s.lastUpdate == now
  {
    UserUpdateWorth(config, m, user, balance, now, s);
    EmissionAdds(config, start, m.stream.lastUpdate, now);
    TimesRight(RAY, m.updates, 1);
    StoredTrails(config, m, user, balance, now, s);
    hide Times, Emitted, Clock, Trailing, TrailingBut, Report, Accruals, Snapshots, Products;
  }

  lemma ReportedWithinEmission(config: Config, m: Market, user: Address, now: nat, start: nat)
    requires m.stream.lastUpdate <= now && TrailingBut(m, user) && WithinEmission(config, m, start)
    requires Reported(config, m, user, now).Ok?
    ensures var next := Reported(config, m, user, now).value;
            Trailing(next) && WithinEmission(config, next, start) && next.stream.lastUpdate == now
            && next.shares == m.shares
  {
    hide Report, WithinEmission, Trailing, TrailingBut;
    var s := Report(config, m.stream, user, m.shares.total, m.shares.Of(user), now).value;
    UpdateWithinEmission(config, m, user, m.shares.Of(user), now, s, start);
  }

  /** A settlement is a report of the balance already stored. */
  lemma SettleIsReport(config: Config, s: Stream, user: Address, total: nat, now: nat)
    requires config.active && total > 0
    ensures Settle(config, s, user, total, now)
         == Report(config, s, user, total, s.Of(user).balanceSnapshot, now)
  {
    hide EffectiveTime, AccruedRewards;
  }

  lemma SettledWithinEmission(config: Config, m: Market, user: Address, total: nat, now: nat, start: nat)
    requires m.stream.lastUpdate <= now && Trailing(m) && WithinEmission(config, m, start)
    requires total == 0 || total == m.shares.total
    requires Settled(config, m, user, total, now).Ok?
    ensures var next := Settled(config, m, user, total, now).value;
            Trailing(next) && WithinEmission(config, next, start) && next.stream.lastUpdate <= now
  {
    var held := m.stream.Of(user).balanceSnapshot;
    if config.active && total > 0 {
      SettleIsReport(config, m.stream, user, total, now);
      hide Report, WithinEmission, Settle;
      var s := Settle(config, m.stream, user, total, now).value;
      UpdateWithinEmission(config, m, user, held, now, s, start);
    } else {
      TimesRight(RAY, m.updates, 1);
      var next := Settled(config, m, user, total, now).value;
      assert next.stream == m.stream;
      hide Times, Emitted, Clock;
      assert Potential(next) == Potential(m);
    }
  }

  /** Paying out moves accrued rewards to claimed ones. */
  lemma PaidWithinEmission(config: Config, m: Market, user: Address, amount: nat, start: nat)
    requires Trailing(m) && WithinEmission(config, m, start) && amount <= m.stream.Of(user).accrued
    ensures Trailing(PaidOut(m, user, amount)) && WithinEmission(config, PaidOut(m, user, amount), start)
    ensures Sum(Accruals(PaidOut(m, user, amount).stream.users)) == Sum(Accruals(m.stream.users)) - amount
  {
    hide Times, Clock, Accruals, Snapshots, Products;
    var d := m.stream.Of(user);
    if amount > 0 {
      ColumnUpdate(m.stream.users, user, d.(accrued := d.accrued - amount));
    }
    assert Potential(PaidOut(m, user, amount)) == Potential(m);
  }

  /** The token's own bookkeeping is not part of the potential. */
  lemma SharesKeepEmission(config: Config, m: Market, shares: Scaled, start: nat)
    requires WithinEmission(config, m, start)
    ensures WithinEmission(config, m.(shares := shares), start)
  {
    assert Potential(m.(shares := shares)) == Potential(m);
  }

  lemma MintOrBurnWithinEmission(config: Config, m: Market, user: Address, balance: nat, now: nat, start: nat)
    requires m.stream.lastUpdate <= now && Trailing(m) && WithinEmission(config, m, start)
    requires Apply(config, m, ToBalance(user, balance), now).Ok?
    ensures var next := Apply(config, m, ToBalance(user, balance), now).value;
            Trailing(next) && WithinEmission(config, next, start) && next.stream.lastUpdate <= now
  {
    hide Reported, WithinEmission;
    var shares := Scaled(m.shares.of[user := balance], m.shares.total - m.shares.Of(user) + balance);
    SumUpdate(m.shares.of, user, balance);
    SharesKeepEmission(config, m, shares, start);
    ReportedWithinEmission(config, m.(shares := shares), user, now, start);
  }

  /** The sender is reported first, when the receiver's stored balance is still the smaller old one. */
  lemma TransferWithinEmission(config: Config, m: Market, from: Address, to: Address, amount: nat, now: nat, start: nat)
    requires m.stream.lastUpdate <= now && Trailing(m) && WithinEmission(config, m, start)
    requires Apply(config, m, Transfer(from, to, amount), now).Ok?
    ensures var next := Apply(config, m, Transfer(from, to, amount), now).value;
            Trailing(next) && WithinEmission(config, next, start) && next.stream.lastUpdate <= now
  {
    hide Reported, WithinEmission, Move;
    MoveConserves(m.shares, from, to, amount);
    var moved := m.(shares := Move(m.shares, from, to, amount).value);
    SharesKeepEmission(config, m, moved.shares, start);
    ReportedWithinEmission(config, moved, from, now, start);
    ReportedWithinEmission(config, Reported(config, moved, from, now).value, to, now, start);
  }

  lemma ApplyWithinEmission(config: Config, m: Market, step: Step, now: nat, start: nat)
    requires m.stream.lastUpdate <= now && Trailing(m) && WithinEmission(config, m, start)
    requires Apply(config, m, step, now).Ok?
    ensures var next := Apply(config, m, step, now).value;
            Trailing(next) && WithinEmission(config, next, start) && next.stream.lastUpdate <= now
  {
    hide Settled, WithinEmission, Trailing, Reported, Move;
    match step
    case ToBalance(user, balance) => MintOrBurnWithinEmission(config, m, user, balance, now, start);
    case Transfer(from, to, amount) => TransferWithinEmission(config, m, from, to, amount, now, start);
    case Claim(user, amount) => PaidWithinEmission(config, m, user, amount, start);
    case ClaimAll(user, answered) =>
      SettledWithinEmission(config, m, user, if answered then m.shares.total else 0, now, start);
      var settled := Settled(config, m, user, if answered then m.shares.total else 0, now).value;
      PaidWithinEmission(config, settled, user, settled.stream.Of(user).accrued, start);
  }

  lemma {:induction false} RunWithinEmission(config: Config, m: Market, steps: seq<(nat, Step)>, start: nat)
    requires Trailing(m) && WithinEmission(config, m, start) && Run(config, m, steps).Ok?
    ensures Trailing(Run(config, m, steps).value) && WithinEmission(config, Run(config, m, steps).value, start)
    decreases |steps|
  {
    hide Apply, Trailing, WithinEmission;
    if steps != [] {
      ApplyWithinEmission(config, m, steps[0].1, steps[0].0, start);
      RunWithinEmission(config, Apply(config, m, steps[0].1, steps[0].0).value, steps[1..], start);
    }
  }

  lemma StartsEmpty(config: Config, shares: Scaled, start: nat)
    requires Backed(shares)
    ensures var first := Market(shares, NewStream(start), 0, 0, 0);
            Trailing(first) && WithinEmission(config, first, start)
  {
    var none: map<Address, UserData> := map[];
    assert Accruals(none) == map[] && Snapshots(none) == map[] && Products(none) == map[];
    assert Times(RAY, 0) == 0;
  }

  /**
   Lazy rewards conserve emission. Doubled, to keep the halves whole: everything accrued and claimed is at
   most what the clock emitted, plus half a unit per user update and, per index update, half the share
   total of that update over a ray.
   */
  lemma LazyRewardsConserveEmission(config: Config, shares: Scaled, start: nat, steps: seq<(nat, Step)>)
    requires config.active && Backed(shares)
    requires Run(config, Market(shares, NewStream(start), 0, 0, 0), steps).Ok?
    ensures var m := Run(config, Market(shares, NewStream(start), 0, 0, 0), steps).value;
            && Clock(config, start) <= Clock(config, m.stream.lastUpdate)
            && 2 * (RAY * (Sum(Accruals(m.stream.users)) + m.claimed))
               <= 2 * (RAY * (config.emission * (Clock(config, m.stream.lastUpdate) - Clock(config, start))))
                  + RAY * m.updates + m.totals
  {
    var first := Market(shares, NewStream(start), 0, 0, 0);
    StartsEmpty(config, shares, start);
    RunWithinEmission(config, first, steps, start);
    var m := Run(config, first, steps).value;
    ProductsBelowIndex(m.stream.users, m.stream.index);
    TimesCommutes(RAY, Times(config.emission, Clock(config, m.stream.lastUpdate) - Clock(config, start)));
    hide Run, Clock;
  }

  // ------------------------------------------------------------------ and emission is paid out

  /** Every holder was reported at its present balance. */
  ghost predicate Standing(m: Market) {
    && Backed(m.shares) && m.stream.index >= RAY
    && (forall u :: u in m.stream.users ==>
          m.stream.users[u].indexSnapshot <= m.stream.index && m.stream.users[u].balanceSnapshot == m.shares.Of(u))
    && (forall u :: m.shares.Of(u) > 0 ==> u in m.stream.users)
  }

  /** A step that moves no shares: a report of an unchanged balance, or a claim. */
  predicate Stands(m: Market, step: Step) {
    step.Claim? || step.ClaimAll? || (step.ToBalance? && step.balance == m.shares.Of(step.user))
  }

  ghost predicate StandsStill(config: Config, m: Market, steps: seq<(nat, Step)>)
    decreases |steps|
  {
    steps != [] ==>
      && Stands(m, steps[0].1)
      && (Apply(config, m, steps[0].1, steps[0].0).Ok? ==>
            StandsStill(config, Apply(config, m, steps[0].1, steps[0].0).value, steps[1..]))
  }

  /** Then the stored balances add up to the token's total. */
  lemma StandingSum(m: Market)
    requires Standing(m)
    ensures Sum(Snapshots(m.stream.users)) == m.shares.total
  {
    SumMonotone(Snapshots(m.stream.users), m.shares.of);
    SumMonotone(m.shares.of, Snapshots(m.stream.users));
  }

  /** A report of the stored balance replaces what is pending for the user by what it gains. */
  lemma StandingArithmetic(index: nat, rise: nat, snapshot: nat, held: nat, gain: nat, sum: nat)
    requires snapshot <= index && held <= sum
    requires Times(index + rise - snapshot, held) <= Times(gain, RAY) + HALF_RAY
    ensures Times(gain, RAY) + Times(index + rise, sum - held + held) - Times(index + rise, held)
              + Times(snapshot, held)
         >= Times(index, sum) + Times(rise, sum) - HALF_RAY
  {
    hide Times;
    TimesLeft(index, rise, sum);
    TimesLeft(snapshot, index + rise - snapshot, held);
  }

  /** One update of a standing market is worth at least what was emitted, less half a unit and half the shares. */
  lemma StandingUpdateWorth(config: Config, m: Market, user: Address, now: nat, s: Stream)
    requires config.active && m.stream.lastUpdate <= now && Standing(m) && m.shares.total > 0
    requires Report(config, m.stream, user, m.shares.total, m.stream.Of(user).balanceSnapshot, now) == Ok(s)
    ensures s.lastUpdate == now && Clock(config, m.stream.lastUpdate) <= Clock(config, now)
    ensures 2 * Potential(m.(stream := s)) + RAY + m.shares.total
         >= 2 * Potential(m) + 2 * Emitted(config, m.stream.lastUpdate, now)
    ensures forall n, k :: Standing(m.(stream := s, updates := n, totals := k))
  {
    hide Times, Potential, Backed, Snapshots, UpdateIndex, Clock, AccruedRewards;
    EffectiveTelescopes(config, m.stream.lastUpdate, now);
    IndexWorth(config, m.stream, m.shares.total, now);
    var t := UpdateIndex(config, m.stream, m.shares.total, now).value;
    var d := m.stream.Of(user);
    var held := d.balanceSnapshot;
    var gain := AccruedRewards(t.index, d.indexSnapshot, held).value;
    var sum := Sum(Snapshots(m.stream.users));
    GainBound(t.index, d.indexSnapshot, held, gain);
    SnapshotBelowSum(m.stream, user);
    StandingSum(m);
    StandingArithmetic(m.stream.index, t.index - m.stream.index, d.indexSnapshot, held, gain, sum);
    PotentialStep(m, s, user, held, gain);
  }

  function Shares(m: Market): nat {
    if m.shares.total < 0 then 0 else m.shares.total
  }

  /** The doubled potential, what it must reach, and the roundings allowed on the way. */
  ghost predicate Reaches(config: Config, m: Market, before: Market) {
    && before.stream.lastUpdate <= m.stream.lastUpdate && before.updates <= m.updates
    && Clock(config, before.stream.lastUpdate) <= Clock(config, m.stream.lastUpdate)
    && 2 * Potential(m) + Times(RAY + Shares(before), m.updates - before.updates)
       >= 2 * Potential(before) + 2 * Emitted(config, before.stream.lastUpdate, m.stream.lastUpdate)
  }

  /** What every standing step keeps. */
  ghost predicate StillStanding(config: Config, m: Market, next: Market) {
    Standing(next) && next.shares.total == m.shares.total && Reaches(config, next, m)
  }

  lemma UpdateReaches(config: Config, m: Market, user: Address, now: nat, s: Stream, totals: nat)
    requires config.active && m.stream.lastUpdate <= now && Standing(m) && m.shares.total > 0
    requires Report(config, m.stream, user, m.shares.total, m.stream.Of(user).balanceSnapshot, now) == Ok(s)
    ensures StillStanding(config, m, m.(stream := s, updates := m.updates + 1, totals := totals))
  {
    StandingUpdateWorth(config, m, user, now, s);
    hide Report, Standing, Accruals, Snapshots, Products, Clock, Emitted;
    assert Times(RAY + Shares(m), 1) == RAY + Shares(m);
  }

  lemma NothingReaches(config: Config, m: Market, next: Market)
    requires next.stream.lastUpdate == m.stream.lastUpdate && next.updates >= m.updates
    requires Potential(next) == Potential(m)
    ensures Reaches(config, next, m)
  {
    hide Potential;
    assert Times(config.emission, 0) == 0 && Times(0, RAY) == 0;
  }

  lemma PaidStands(config: Config, m: Market, user: Address, amount: nat)
    requires Standing(m) && amount <= m.stream.Of(user).accrued
    ensures StillStanding(config, m, PaidOut(m, user, amount))
  {
    hide Times, Clock, Accruals, Snapshots, Products;
    var d := m.stream.Of(user);
    if amount > 0 {
      ColumnUpdate(m.stream.users, user, d.(accrued := d.accrued - amount));
    }
    NothingReaches(config, m, PaidOut(m, user, amount));
  }

  lemma SettledStands(config: Config, m: Market, user: Address, total: nat, now: nat)
    requires config.active && m.stream.lastUpdate <= now && Standing(m) && m.shares.total > 0
    requires total == 0 || total == m.shares.total
    requires Settled(config, m, user, total, now).Ok?
    ensures StillStanding(config, m, Settled(config, m, user, total, now).value)
  {
    var next := Settled(config, m, user, total, now).value;
    if total > 0 {
      SettleIsReport(config, m.stream, user, total, now);
      hide Report, Settle;
      UpdateReaches(config, m, user, now, next.stream, next.totals);
    } else {
      assert Potential(next) == Potential(m);
      NothingReaches(config, m, next);
    }
  }

  /** Writing a balance back as it is leaves the market standing, and its potential alone. */
  lemma SameBalance(m: Market, user: Address)
    requires Standing(m)
    ensures var same := m.(shares := Scaled(m.shares.of[user := m.shares.Of(user)], m.shares.total));
            Standing(same) && Potential(same) == Potential(m)
    ensures m.stream.Of(user).balanceSnapshot == m.shares.Of(user)
  {
    hide Times;
    SumUpdate(m.shares.of, user, m.shares.Of(user));
  }

  lemma ReportStands(config: Config, m: Market, user: Address, now: nat)
    requires config.active && m.stream.lastUpdate <= now && Standing(m) && m.shares.total > 0
    requires Apply(config, m, ToBalance(user, m.shares.Of(user)), now).Ok?
    ensures StillStanding(config, m, Apply(config, m, ToBalance(user, m.shares.Of(user)), now).value)
  {
    hide Report, Times, Clock, Standing, Potential, Emitted;
    var held := m.shares.Of(user);
    var same := m.(shares := Scaled(m.shares.of[user := held], m.shares.total));
    SameBalance(m, user);
    var next := Apply(config, m, ToBalance(user, held), now).value;
    UpdateReaches(config, same, user, now, next.stream, next.totals);
  }

  lemma ReachesAdds(config: Config, m: Market, middle: Market, end: Market)
    requires Reaches(config, middle, m) && Reaches(config, end, middle) && Shares(middle) == Shares(m)
    ensures Reaches(config, end, m)
  {
    EmissionAdds(config, m.stream.lastUpdate, middle.stream.lastUpdate, end.stream.lastUpdate);
    TimesRight(RAY + Shares(m), middle.updates - m.updates, end.updates - middle.updates);
    hide Potential, Emitted, Clock, Times;
  }

  lemma StandingStep(config: Config, m: Market, step: Step, now: nat)
    requires config.active && m.stream.lastUpdate <= now && Standing(m) && m.shares.total > 0
    requires Stands(m, step) && Apply(config, m, step, now).Ok?
    ensures StillStanding(config, m, Apply(config, m, step, now).value)
  {
    hide Settled, Standing, Reported, Reaches;
    match step
    case ToBalance(user, balance) => ReportStands(config, m, user, now);
    case Claim(user, amount) => PaidStands(config, m, user, amount);
    case ClaimAll(user, answered) =>
      var total := if answered then m.shares.total else 0;
      SettledStands(config, m, user, total, now);
      var settled := Settled(config, m, user, total, now).value;
      PaidStands(config, settled, user, settled.stream.Of(user).accrued);
      ReachesAdds(config, m, settled, PaidOut(settled, user, settled.stream.Of(user).accrued));
  }

  /**
   Emission is paid out: over every run in which all holders were reported at the start and no shares move, what is
   accrued, claimed and pending rises by at least what the clock emitted up to the last update, less half a unit and
   half the share total per user update. With the bound above, lazy rewards are exact up to those roundings.
   */
  lemma {:induction false} StandingRewardsReachEmission(config: Config, m: Market, steps: seq<(nat, Step)>)
    requires config.active && Standing(m) && m.shares.total > 0
    requires StandsStill(config, m, steps) && Run(config, m, steps).Ok?
    ensures StillStanding(config, m, Run(config, m, steps).value)
    ensures var end := Run(config, m, steps).value;
            2 * Potential(end) + Times(RAY + Shares(m), end.updates - m.updates)
            >= 2 * Potential(m) + 2 * Emitted(config, m.stream.lastUpdate, end.stream.lastUpdate)
    decreases |steps|
  {
    hide Apply, Standing, Stands, Potential, Emitted, Times, Clock;
    if steps == [] {
      NothingReaches(config, m, m);
    } else {
      StandingStep(config, m, steps[0].1, steps[0].0);
      var next := Apply(config, m, steps[0].1, steps[0].0).value;
      StandingRewardsReachEmission(config, next, steps[1..]);
      ReachesAdds(config, m, next, Run(config, m, steps).value);
    }
  }

  // ------------------------------------------------------------------ what is accepted

  /** An index update fails only on a number that does not fit. */
  lemma UpdateAccepted(config: Config, s: Stream, total: nat, now: nat)
    requires s.lastUpdate <= now
    ensures UpdateIndex(config, s, total, now).Ok? <==>
            var emitted := config.emission * (Clock(config, now) - Clock(config, s.lastUpdate));
            || !config.active || total == 0 || Clock(config, now) == Clock(config, s.lastUpdate)
            || (emitted <= U128_MAX && DivNear(emitted, total) <= U128_MAX
                && s.index + DivNear(emitted, total) <= U128_MAX)
  {
    hide DivNear;
    EffectiveTelescopes(config, s.lastUpdate, now);
  }

  /**
   A report in a run, at any time from the last update on, is accepted exactly when the index advances and the new
   rewards fit. The first and the last of a token's shares are reported like any others.
   */
  lemma ReportAccepted(config: Config, m: Market, user: Address, balance: nat, now: nat)
    requires Backed(m.shares) && m.stream.lastUpdate <= now
    ensures m.shares.Of(user) <= m.shares.total
    ensures var (total, d) := (m.shares.total - m.shares.Of(user) + balance, m.stream.Of(user));
            Run(config, m, [(now, ToBalance(user, balance))]).Ok? <==>
              && UpdateIndex(config, m.stream, total, now).Ok?
              && var index := UpdateIndex(config, m.stream, total, now).value.index;
                 && (Min(d.balanceSnapshot, balance) > 0 ==> d.indexSnapshot <= index)
                 && (Min(d.balanceSnapshot, balance) > 0 ==>
                       d.accrued + MulNear(index - d.indexSnapshot, Min(d.balanceSnapshot, balance)) <= U128_MAX)
                 && d.accrued <= U128_MAX
  {
    hide MulNear, DivNear, EffectiveTime, Sum;
    SumBoundsEntry(m.shares.of, user);
    var steps := [(now, ToBalance(user, balance))];
    var applied := Apply(config, m, steps[0].1, now);
    assert steps[1..] == [];
    assert Run(config, m, steps).Ok? <==> applied.Ok?;
  }

  /** A claim is accepted exactly when that much has accrued, and moves it from accrued to claimed. */
  lemma ClaimAccepted(config: Config, m: Market, user: Address, amount: nat, now: nat)
    ensures Apply(config, m, Claim(user, amount), now).Ok? <==> amount <= m.stream.Of(user).accrued
    ensures Apply(config, m, Claim(user, amount), now).Ok? ==>
              var next := Apply(config, m, Claim(user, amount), now).value;
              && next.claimed == m.claimed + amount
              && next.stream.Of(user) == m.stream.Of(user).(accrued := m.stream.Of(user).accrued - amount)
              && (forall u :: u != user ==> next.stream.Of(u) == m.stream.Of(u))
  {
  }
}
