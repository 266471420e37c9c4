/**
 The incentives contract: every stream of every asset, the report loop behind balance changes, and the
 two ways to claim. Claims conserve: what is transferred is exactly what leaves the caller's entries.
 */
module Rewards {
  import opened Common
  import opened RayMath
  import opened Totals
  import opened Incentives

  const SUPPLY: nat := 0
  const BORROW: nat := 1
  const MAX_CLAIMABLE_ASSETS: nat := 10

  /** A stream's name: the asset that reports, the token it pays and the kind of balance it rewards. */
  datatype Key = Key(asset: Address, token: Address, kind: nat)

  type Streams = map<Key, Stream>

  /**
   A stream's stored state. An absent one reads as unstarted; storage would give the present time as its clock,
   which makes no difference to a contract, since configuring a stream always stores its index.
   */
  function At(streams: Streams, key: Key): Stream {
    if key in streams then streams[key] else Stream(RAY, 0, map[])
  }

  function AccruedAt(streams: Streams, key: Key, user: Address): nat {
    At(streams, key).Of(user).accrued
  }

  // ------------------------------------------------------------------ reports

  /** No item is listed twice. */
  predicate NoRepeats<T(==)>(items: seq<T>)
    decreases |items|
  {
    items == [] || (items[|items| - 1] !in items[..|items| - 1] && NoRepeats(items[..|items| - 1]))
  }

  /** One reward token's turn: skipped when not configured or not active. */
  function ReportOne(configs: map<Key, Config>, streams: Streams, key: Key, user: Address, total: nat, balance: nat,
                     now: nat): Result<Streams> {
    if key !in configs || !configs[key].active then Ok(streams)
    else
      var s :- Report(configs[key], At(streams, key), user, total, balance, now);
      Ok(streams[key := s])
  }

  function ReportAll(configs: map<Key, Config>, streams: Streams, asset: Address, kind: nat, tokens: seq<Address>,
                     user: Address, total: nat, balance: nat, now: nat): Result<Streams>
    decreases |tokens|
  {
    if tokens == [] then Ok(streams)
    else
      var last := |tokens| - 1;
      var before :- ReportAll(configs, streams, asset, kind, tokens[..last], user, total, balance, now);
      ReportOne(configs, before, Key(asset, tokens[last], kind), user, total, balance, now)
  }

  lemma {:induction false} ReportAllFails(configs: map<Key, Config>, streams: Streams, asset: Address, kind: nat,
      tokens: seq<Address>, n: nat, user: Address, total: nat, balance: nat, now: nat)
    requires n <= |tokens|
    requires ReportAll(configs, streams, asset, kind, tokens[..n], user, total, balance, now).Err?
    ensures ReportAll(configs, streams, asset, kind, tokens, user, total, balance, now)
         == ReportAll(configs, streams, asset, kind, tokens[..n], user, total, balance, now)
    decreases |tokens|
  {
    if n < |tokens| {
      var last := |tokens| - 1;
      assert tokens[..last][..n] == tokens[..n];
      ReportAllFails(configs, streams, asset, kind, tokens[..last], n, user, total, balance, now);
    } else {
      assert tokens[..n] == tokens;
    }
  }

  /**
   An action reaches each of the asset's active streams of its kind exactly once, and no other: the
   registry lists a reward token once.
   */
  lemma {:induction false} ActionReachesItsStreams(configs: map<Key, Config>, streams: Streams, asset: Address,
      kind: nat, tokens: seq<Address>, user: Address, total: nat, balance: nat, now: nat, key: Key)
    requires NoRepeats(tokens)
    requires ReportAll(configs, streams, asset, kind, tokens, user, total, balance, now).Ok?
    ensures var after := ReportAll(configs, streams, asset, kind, tokens, user, total, balance, now).value;
            if key.asset == asset && key.kind == kind && key.token in tokens && key in configs
                && configs[key].active then
              Report(configs[key], At(streams, key), user, total, balance, now) == Ok(At(after, key))
            else
              At(after, key) == At(streams, key)
    decreases |tokens|
  {
    hide Report;
    if tokens != [] {
      var last := |tokens| - 1;
      ActionReachesItsStreams(configs, streams, asset, kind, tokens[..last], user, total, balance, now, key);
      assert tokens == tokens[..last] + [tokens[last]];
    }
  }

  // ------------------------------------------------------------------ claims of one token

  function Pair(asset: Address, token: Address): seq<Key> {
    [Key(asset, token, SUPPLY), Key(asset, token, BORROW)]
  }

  /** The two kinds of every listed asset, in the order the loops visit them. */
  function KeysFor(assets: seq<Address>, token: Address): seq<Key>
    decreases |assets|
  {
    if assets == [] then []
    else
      var last := |assets| - 1;
      KeysFor(assets[..last], token) + Pair(assets[last], token)
  }

  /** What is claimable along a list of keys, repeated keys counted as often as they are listed. */
  function Claimable(streams: Streams, keys: seq<Key>, user: Address): Result<nat>
    decreases |keys|
  {
    if keys == [] then Ok(0)
    else
      var before :- Claimable(streams, keys[..|keys| - 1], user);
      Fit(before + AccruedAt(streams, keys[|keys| - 1], user))
  }

  datatype Drained = Drained(streams: Streams, claimed: nat)

  /** Take from one entry as much as is still wanted. */
  function DrainOne(d: Drained, key: Key, user: Address, goal: nat): Drained {
    var claimable := if d.claimed >= goal then 0 else Min(goal - d.claimed, AccruedAt(d.streams, key, user));
    if claimable == 0 then d
    else Drained(d.streams[key := Take(At(d.streams, key), user, claimable)], d.claimed + claimable)
  }

  function Drain(streams: Streams, keys: seq<Key>, user: Address, goal: nat): Drained
    decreases |keys|
  {
    if keys == [] then Drained(streams, 0)
    else DrainOne(Drain(streams, keys[..|keys| - 1], user, goal), keys[|keys| - 1], user, goal)
  }

  /** Once enough is claimed nothing more is taken, which is why both loops may stop. */
  lemma {:induction false} DrainStops(streams: Streams, keys: seq<Key>, more: seq<Key>, user: Address, goal: nat)
    requires Drain(streams, keys, user, goal).claimed >= goal
    ensures Drain(streams, keys + more, user, goal) == Drain(streams, keys, user, goal)
    decreases |more|
  {
    if more == [] {
      assert keys + more == keys;
    } else {
      var last := |more| - 1;
      assert (keys + more)[..|keys + more| - 1] == keys + more[..last];
      DrainStops(streams, keys, more[..last], user, goal);
    }
  }

  lemma {:induction false} ClaimableFails(streams: Streams, keys: seq<Key>, more: seq<Key>, user: Address)
    requires Claimable(streams, keys, user).Err?
    ensures Claimable(streams, keys + more, user) == Claimable(streams, keys, user)
    decreases |more|
  {
    if more == [] {
      assert keys + more == keys;
    } else {
      var last := |more| - 1;
      assert (keys + more)[..|keys + more| - 1] == keys + more[..last];
      ClaimableFails(streams, keys, more[..last], user);
    }
  }

  /** The keys of the first assets begin the keys of all of them; the rest is what remains to visit. */
  lemma {:induction false} KeysForSplit(assets: seq<Address>, n: nat, token: Address) returns (more: seq<Key>)
    requires n <= |assets|
    ensures KeysFor(assets, token) == KeysFor(assets[..n], token) + more
    decreases |assets|
  {
    if n == |assets| {
      assert assets[..n] == assets;
      more := [];
    } else {
      hide Pair;
      var last := |assets| - 1;
      more := KeysForSplit(assets[..last], n, token);
      assert assets[..last][..n] == assets[..n];
      more := more + Pair(assets[last], token);
    }
  }

  /** Where the loops stand after i assets and the first kinds of the next. */
  function Visited(assets: seq<Address>, token: Address, i: nat, kinds: nat): seq<Key>
    requires i <= |assets| && (kinds == 0 || (i < |assets| && kinds <= 2))
  {
    if kinds == 0 then KeysFor(assets[..i], token) else KeysFor(assets[..i], token) + Pair(assets[i], token)[..kinds]
  }

  lemma VisitNext(assets: seq<Address>, token: Address, i: nat, kinds: nat)
    requires i < |assets| && kinds < 2
    ensures Visited(assets, token, i, kinds + 1) == Visited(assets, token, i, kinds) + [Key(assets[i], token, kinds)]
    ensures Visited(assets, token, i, 2) == Visited(assets, token, i + 1, 0)
  {
    assert assets[..i + 1][..i] == assets[..i];
    assert Pair(assets[i], token)[..kinds + 1] == Pair(assets[i], token)[..kinds] + [Key(assets[i], token, kinds)];
    assert Pair(assets[i], token)[..2] == Pair(assets[i], token);
  }

  lemma PairLength(asset: Address, token: Address)
    ensures |Pair(asset, token)| == 2
  {
  }

  lemma VisitedIsPrefix(assets: seq<Address>, token: Address, i: nat, kinds: nat) returns (more: seq<Key>)
    requires i <= |assets| && (kinds == 0 || (i < |assets| && kinds <= 2))
    ensures KeysFor(assets, token) == Visited(assets, token, i, kinds) + more
  {
    if kinds == 0 {
      more := KeysForSplit(assets, i, token);
    } else {
      hide Pair;
      assert assets[..i + 1][..i] == assets[..i];
      var rest := KeysForSplit(assets, i + 1, token);
      var pair := Pair(assets[i], token);
      PairLength(assets[i], token);
      more := pair[kinds..] + rest;
      assert pair == pair[..kinds] + pair[kinds..];
    }
  }

  lemma VisitedEnds(assets: seq<Address>, token: Address)
    ensures Visited(assets, token, 0, 0) == [] && Visited(assets, token, |assets|, 0) == KeysFor(assets, token)
  {
    assert assets[..|assets|] == assets;
  }

  /** The whole of claim_rewards: what is left stored and what is paid, or why nothing happens. */
  function ClaimOutcome(streams: Streams, paused: bool, assets: seq<Address>, token: Address, user: Address,
      amount: nat)
    : Result<Drained> {
    var _ :- Need(!paused, ContractPaused);
    var keys := KeysFor(assets, token);
    var total :- Claimable(streams, keys, user);
    var _ :- Need(amount <= total, InsufficientRewards);
    var d := Drain(streams, keys, user, if amount == 0 then total else amount);
    var _ :- FitSigned(d.claimed);
    Ok(d)
  }

  // ------------------------------------------------------------------ claims of everything

  /** Every registered reward token of every asset, both kinds. */
  function KeysOf(asset: Address, tokens: seq<Address>): seq<Key>
    decreases |tokens|
  {
    if tokens == [] then []
    else
      var last := |tokens| - 1;
      KeysOf(asset, tokens[..last]) + Pair(asset, tokens[last])
  }

  function TokensOf(registry: map<Address, seq<Address>>, asset: Address): seq<Address> {
    if asset in registry then registry[asset] else []
  }

  function AllKeys(registry: map<Address, seq<Address>>, assets: seq<Address>): seq<Key>
    decreases |assets|
  {
    if assets == [] then []
    else
      var last := |assets| - 1;
      AllKeys(registry, assets[..last]) + KeysOf(assets[last], TokensOf(registry, assets[last]))
  }

  /** What the token answered for its total, zero when the call failed. */
  function Answer(answers: map<Address, nat>, asset: Address): nat {
    if asset in answers then answers[asset] else 0
  }

  /** A stream settled for the user and emptied of what was accrued. */
  datatype Emptied = Emptied(stream: Stream, paid: nat)

  function SettleIfActive(config: Option<Config>, s: Stream, user: Address, total: nat, now: nat): Result<Stream> {
    if config.Some? then Settle(config.value, s, user, total, now) else Ok(s)
  }

  function Empty(config: Option<Config>, s: Stream, user: Address, total: nat, now: nat): Result<Emptied> {
    var settled :- SettleIfActive(config, s, user, total, now);
    Ok(Emptied(Take(settled, user, settled.Of(user).accrued), settled.Of(user).accrued))
  }

  function ConfigOf(configs: map<Key, Config>, key: Key): Option<Config> {
    if key in configs then Some(configs[key]) else None
  }

  /** The state of a claim in progress: the streams and the amounts gathered per reward token. */
  datatype Gathered = Gathered(streams: Streams, amounts: map<Address, nat>)

  function GatherOne(configs: map<Key, Config>, answers: map<Address, nat>, g: Gathered, key: Key, user: Address,
                     now: nat): Result<Gathered> {
    var e :- Empty(ConfigOf(configs, key), At(g.streams, key), user, Answer(answers, key.asset), now);
    var settles := key in configs && configs[key].active && Answer(answers, key.asset) > 0;
    var streams := if settles || e.paid > 0 then g.streams[key := e.stream] else g.streams;
    if e.paid == 0 then Ok(Gathered(streams, g.amounts))
    else
      var amount :- Fit(Get(g.amounts, key.token) + e.paid);
      Ok(Gathered(streams, g.amounts[key.token := amount]))
  }

  /** The loops of claim_all_rewards along a list of keys, from a claim already begun. */
  function GatherFrom(configs: map<Key, Config>, answers: map<Address, nat>, begun: Gathered, keys: seq<Key>,
                      user: Address, now: nat): Result<Gathered>
    decreases |keys|
  {
    if keys == [] then Ok(begun)
    else
      var g :- GatherFrom(configs, answers, begun, keys[..|keys| - 1], user, now);
      GatherOne(configs, answers, g, keys[|keys| - 1], user, now)
  }

  function Gather(configs: map<Key, Config>, answers: map<Address, nat>, streams: Streams, keys: seq<Key>,
                  user: Address, now: nat): Result<Gathered> {
    GatherFrom(configs, answers, Gathered(streams, map[]), keys, user, now)
  }

  lemma {:induction false} GatherAppend(configs: map<Key, Config>, answers: map<Address, nat>, begun: Gathered,
                                        keys: seq<Key>, more: seq<Key>, user: Address, now: nat)
    ensures var first := GatherFrom(configs, answers, begun, keys, user, now);
            GatherFrom(configs, answers, begun, keys + more, user, now)
            == if first.Ok? then GatherFrom(configs, answers, first.value, more, user, now) else first
    decreases |more|
  {
    if more == [] {
      assert keys + more == keys;
    } else {
      var last := |more| - 1;
      assert (keys + more)[..|keys + more| - 1] == keys + more[..last];
      GatherAppend(configs, answers, begun, keys, more[..last], user, now);
    }
  }

  // ------------------------------------------------------------------ what a drain conserves

  /** The user's accrued rewards over a set of streams, each stream once. */
  ghost function Column(streams: Streams, keys: seq<Key>, user: Address): map<Key, nat> {
    map k | k in keys :: AccruedAt(streams, k, user)
  }

  ghost function AccruedTotal(streams: Streams, keys: seq<Key>, user: Address): nat {
    Sum(Column(streams, keys, user))
  }

  lemma ColumnGrows(streams: Streams, keys: seq<Key>, key: Key, user: Address)
    ensures AccruedTotal(streams, keys + [key], user)
         == AccruedTotal(streams, keys, user) + if key in keys then 0 else AccruedAt(streams, key, user)
  {
    if key in keys {
      assert Column(streams, keys + [key], user) == Column(streams, keys, user);
    } else {
      assert Column(streams, keys + [key], user) == Column(streams, keys, user)[key := AccruedAt(streams, key, user)];
      SumUpdate(Column(streams, keys, user), key, AccruedAt(streams, key, user));
    }
  }

  /** Along any list of keys: what is claimed is the smaller of the goal and the distinct total. */
  lemma {:induction false} DrainClaims(streams: Streams, keys: seq<Key>, user: Address, goal: nat)
    ensures var d := Drain(streams, keys, user, goal);
            && d.claimed == Min(goal, AccruedTotal(streams, keys, user))
            && (d.claimed < goal ==> forall k :: k in keys ==> AccruedAt(d.streams, k, user) == 0)
            && (forall k :: k !in keys ==> At(d.streams, k) == At(streams, k))
    decreases |keys|
  {
    if keys == [] {
      assert Column(streams, keys, user) == map[];
    } else {
      var last := |keys| - 1;
      DrainClaims(streams, keys[..last], user, goal);
      ColumnGrows(streams, keys[..last], keys[last], user);
      assert keys == keys[..last] + [keys[last]];
    }
  }

  /** Over any wider set of streams, the user's total drops by exactly what was claimed. */
  lemma {:induction false} DrainConserves(streams: Streams, keys: seq<Key>, user: Address, goal: nat, all: seq<Key>)
    requires forall k :: k in keys ==> k in all
    ensures var d := Drain(streams, keys, user, goal);
            AccruedTotal(d.streams, all, user) + d.claimed == AccruedTotal(streams, all, user)
    decreases |keys|
  {
    if keys != [] {
      var last := |keys| - 1;
      var key := keys[last];
      DrainConserves(streams, keys[..last], user, goal, all);
      var before := Drain(streams, keys[..last], user, goal);
      var after := Drain(streams, keys, user, goal);
      assert Column(after.streams, all, user) == Column(before.streams, all, user)[key := AccruedAt(after.streams,
          key, user)];
      SumUpdate(Column(before.streams, all, user), key, AccruedAt(after.streams, key, user));
    }
  }

  /** Nobody else's entry is touched, nor anything but the accrued amount of the caller's. */
  lemma {:induction false} DrainIsPrivate(streams: Streams, keys: seq<Key>, user: Address, goal: nat, key: Key)
    ensures var s := At(Drain(streams, keys, user, goal).streams, key);
            && s.index == At(streams, key).index && s.lastUpdate == At(streams, key).lastUpdate
            && (forall v :: v != user ==> s.Of(v) == At(streams, key).Of(v))
            && s.Of(user).(accrued := 0) == At(streams, key).Of(user).(accrued := 0)
    decreases |keys|
  {
    if keys != [] {
      DrainIsPrivate(streams, keys[..|keys| - 1], user, goal, key);
    }
  }

  /** Repeated keys make the first phase count too much, never too little. */
  lemma {:induction false} ClaimableCounts(streams: Streams, keys: seq<Key>, user: Address)
    requires Claimable(streams, keys, user).Ok?
    ensures AccruedTotal(streams, keys, user) <= Claimable(streams, keys, user).value
    ensures NoRepeats(keys) ==> AccruedTotal(streams, keys, user) == Claimable(streams, keys, user).value
    decreases |keys|
  {
    if keys == [] {
      assert Column(streams, keys, user) == map[];
    } else {
      var last := |keys| - 1;
      ClaimableCounts(streams, keys[..last], user);
      ColumnGrows(streams, keys[..last], keys[last], user);
      assert keys == keys[..last] + [keys[last]];
    }
  }

  lemma {:induction false} DistinctAssetsDistinctKeys(assets: seq<Address>, token: Address)
    requires NoRepeats(assets)
    ensures forall k :: k in KeysFor(assets, token) ==> k.asset in assets
    ensures NoRepeats(KeysFor(assets, token))
    decreases |assets|
  {
    if assets != [] {
      var last := |assets| - 1;
      DistinctAssetsDistinctKeys(assets[..last], token);
      var before := KeysFor(assets[..last], token);
      assert KeysFor(assets, token) == before + Pair(assets[last], token);
      var (supply, borrow) := (Key(assets[last], token, SUPPLY), Key(assets[last], token, BORROW));
      var keys := KeysFor(assets, token);
      assert keys[..|keys| - 1] == before + [supply];
      assert (before + [supply])[..|before|] == before;
    }
  }

  /**
   Claims conserve: over any set of streams that includes the visited ones the caller's accrued total drops
   by exactly what is paid; and with distinct assets the payment is the amount asked for, or everything.
   */
  lemma ClaimsConserve(streams: Streams, paused: bool, assets: seq<Address>, token: Address, user: Address,
                       amount: nat, all: seq<Key>)
    requires ClaimOutcome(streams, paused, assets, token, user, amount).Ok?
    requires forall k :: k in KeysFor(assets, token) ==> k in all
    ensures var d := ClaimOutcome(streams, paused, assets, token, user, amount).value;
            var held := AccruedTotal(streams, KeysFor(assets, token), user);
            && AccruedTotal(d.streams, all, user) + d.claimed == AccruedTotal(streams, all, user)
            && d.claimed == (if amount == 0 then held else Min(amount, held))
            && (NoRepeats(assets) && amount > 0 ==> d.claimed == amount)
  {
    var keys := KeysFor(assets, token);
    var total := Claimable(streams, keys, user).value;
    var goal := if amount == 0 then total else amount;
    DrainClaims(streams, keys, user, goal);
    DrainConserves(streams, keys, user, goal, all);
    ClaimableCounts(streams, keys, user);
    if NoRepeats(assets) {
      DistinctAssetsDistinctKeys(assets, token);
    }
    hide KeysFor, Drain, Claimable, NoRepeats, AccruedTotal;
  }

  // ------------------------------------------------------------------ what claiming everything conserves

  /** At the same time again the index stands still, and a user at the index has nothing pending. */
  lemma SettledTwice(config: Config, s: Stream, user: Address, total: nat, now: nat, u: Stream)
    requires config.active && total > 0 && Settle(config, s, user, total, now).Ok?
    requires var t := Settle(config, s, user, total, now).value; u == Take(t, user, t.Of(user).accrued)
    ensures Settle(config, u, user, total, now) == Ok(u)
  {
    assert EffectiveTime(config, now, now) == 0;
    var d := u.Of(user);
    assert AccruedRewards(u.index, d.indexSnapshot, d.balanceSnapshot) == Ok(0) by {
      assert MulNear(0, d.balanceSnapshot) == 0;
    }
    assert u.users[user := UserData(0, u.index, d.balanceSnapshot)] == u.users;
  }

  /** Settling and emptying a stream twice in one call is doing it once: the second pays nothing. */
  lemma EmptyTwice(config: Option<Config>, s: Stream, user: Address, total: nat, now: nat)
    requires Empty(config, s, user, total, now).Ok?
    ensures var e := Empty(config, s, user, total, now).value;
            Empty(config, e.stream, user, total, now) == Ok(Emptied(e.stream, 0))
  {
    if config.Some? && config.value.active && total > 0 {
      SettledTwice(config.value, s, user, total, now, Empty(config, s, user, total, now).value.stream);
    }
  }

  /** What emptying pays is the old accrued amount plus what the settlement added. */
  lemma EmptyPaysOldAndNew(config: Option<Config>, s: Stream, user: Address, total: nat, now: nat)
    requires Empty(config, s, user, total, now).Ok?
    ensures var e := Empty(config, s, user, total, now).value;
            && e.stream.Of(user).accrued == 0 && (forall v :: v != user ==> e.stream.Of(v) == s.Of(v))
            && var settles := config.Some? && config.value.active && total > 0;
               if !settles then e.paid == s.Of(user).accrued
               else
                 var d := s.Of(user);
                 && UpdateIndex(config.value, s, total, now).Ok?
                 && var index := UpdateIndex(config.value, s, total, now).value.index;
                    && AccruedRewards(index, d.indexSnapshot, d.balanceSnapshot).Ok?
                    && e.paid == d.accrued + AccruedRewards(index, d.indexSnapshot, d.balanceSnapshot).value
  {
    hide EffectiveTime, AccruedRewards;
  }

  function EmptyAt(configs: map<Key, Config>, answers: map<Address, nat>, streams: Streams, key: Key, user: Address,
                   now: nat): Result<Emptied> {
    Empty(ConfigOf(configs, key), At(streams, key), user, Answer(answers, key.asset), now)
  }

  /** What each distinct stream of a reward token pays the user in this call. */
  ghost function Payments(configs: map<Key, Config>, answers: map<Address, nat>, streams: Streams, keys: seq<Key>,
                          user: Address, now: nat, token: Address): map<Key, nat> {
    map k | k in keys && k.token == token ::
      var e := EmptyAt(configs, answers, streams, k, user, now);
      if e.Ok? then e.value.paid else 0
  }

  lemma GatherOneStep(configs: map<Key, Config>, answers: map<Address, nat>, g: Gathered, key: Key, user: Address,
      now: nat)
    requires GatherOne(configs, answers, g, key, user, now).Ok?
    ensures var e := EmptyAt(configs, answers, g.streams, key, user, now);
            var next := GatherOne(configs, answers, g, key, user, now).value;
            && e.Ok? && At(next.streams, key) == e.value.stream
            && (forall k :: k != key ==> At(next.streams, k) == At(g.streams, k))
            && Get(next.amounts, key.token) == Get(g.amounts, key.token) + e.value.paid
            && (forall t :: t != key.token ==> Get(next.amounts, t) == Get(g.amounts, t))
  {
    hide AccruedRewards, UpdateIndex;
  }

  /** Along any list of keys, every stream ends settled and emptied exactly once. */
  lemma {:induction false} GatherEmptiesOnce(configs: map<Key, Config>, answers: map<Address, nat>, streams: Streams,
                                             keys: seq<Key>, user: Address, now: nat, key: Key)
    requires Gather(configs, answers, streams, keys, user, now).Ok?
    ensures var g := Gather(configs, answers, streams, keys, user, now).value;
            if key in keys then
              && EmptyAt(configs, answers, streams, key, user, now).Ok?
              && At(g.streams, key) == EmptyAt(configs, answers, streams, key, user, now).value.stream
            else At(g.streams, key) == At(streams, key)
    decreases |keys|
  {
    if keys != [] {
      hide Empty, GatherOne;
      var last := |keys| - 1;
      var before := Gather(configs, answers, streams, keys[..last], user, now).value;
      GatherEmptiesOnce(configs, answers, streams, keys[..last], user, now, key);
      GatherOneStep(configs, answers, before, keys[last], user, now);
      assert keys == keys[..last] + [keys[last]];
      if key == keys[last] && key in keys[..last] {
        EmptyTwice(ConfigOf(configs, key), At(streams, key), user, Answer(answers, key.asset), now);
      }
    }
  }

  lemma PaymentsGrow(configs: map<Key, Config>, answers: map<Address, nat>, streams: Streams, keys: seq<Key>, key: Key,
                     user: Address, now: nat, token: Address)
    ensures var e := EmptyAt(configs, answers, streams, key, user, now);
            Sum(Payments(configs, answers, streams, keys + [key], user, now, token))
            == Sum(Payments(configs, answers, streams, keys, user, now, token))
               + if key in keys || key.token != token || e.Err? then 0 else e.value.paid
  {
    hide EmptyAt;
    var was := Payments(configs, answers, streams, keys, user, now, token);
    var e := EmptyAt(configs, answers, streams, key, user, now);
    var paid := if e.Ok? then e.value.paid else 0;
    if key in keys || key.token != token {
      assert Payments(configs, answers, streams, keys + [key], user, now, token) == was;
    } else {
      assert Payments(configs, answers, streams, keys + [key], user, now, token) == was[key := paid];
      SumUpdate(was, key, paid);
    }
  }

  /** And each reward token's amount is the sum of its distinct streams' payments, repeated assets or not. */
  lemma {:induction false} GatherPaysDistinct(configs: map<Key, Config>, answers: map<Address, nat>, streams: Streams,
                                              keys: seq<Key>, user: Address, now: nat, token: Address)
    requires Gather(configs, answers, streams, keys, user, now).Ok?
    ensures Get(Gather(configs, answers, streams, keys, user, now).value.amounts, token)
         == Sum(Payments(configs, answers, streams, keys, user, now, token))
    decreases |keys|
  {
    if keys == [] {
      assert Payments(configs, answers, streams, keys, user, now, token) == map[];
    } else {
      var last := |keys| - 1;
      var key := keys[last];
      var before := Gather(configs, answers, streams, keys[..last], user, now).value;
      GatherPaysDistinct(configs, answers, streams, keys[..last], user, now, token);
      GatherEmptiesOnce(configs, answers, streams, keys[..last], user, now, key);
      GatherOneStep(configs, answers, before, key, user, now);
      hide Empty, GatherOne, GatherFrom;
      PaymentsGrow(configs, answers, streams, keys[..last], key, user, now, token);
      assert keys == keys[..last] + [key];
      if key in keys[..last] {
        EmptyTwice(ConfigOf(configs, key), At(streams, key), user, Answer(answers, key.asset), now);
      }
    }
  }

  lemma {:induction false} KeysOfSplit(asset: Address, tokens: seq<Address>, n: nat) returns (more: seq<Key>)
    requires n <= |tokens|
    ensures KeysOf(asset, tokens) == KeysOf(asset, tokens[..n]) + more
    decreases |tokens|
  {
    if n == |tokens| {
      assert tokens[..n] == tokens;
      more := [];
    } else {
      hide Pair;
      var last := |tokens| - 1;
      more := KeysOfSplit(asset, tokens[..last], n);
      assert tokens[..last][..n] == tokens[..n];
      more := more + Pair(asset, tokens[last]);
    }
  }

  lemma {:induction false} AllKeysSplit(registry: map<Address, seq<Address>>, assets: seq<Address>, n: nat)
    returns (more: seq<Key>)
    requires n <= |assets|
    ensures AllKeys(registry, assets) == AllKeys(registry, assets[..n]) + more
    decreases |assets|
  {
    if n == |assets| {
      assert assets[..n] == assets;
      more := [];
    } else {
      hide KeysOf;
      var last := |assets| - 1;
      more := AllKeysSplit(registry, assets[..last], n);
      assert assets[..last][..n] == assets[..n];
      more := more + KeysOf(assets[last], TokensOf(registry, assets[last]));
    }
  }

  /** The assets a claim of everything visits: all registered ones when none are named. */
  function AssetsToProcess(assetList: seq<Address>, assets: seq<Address>): seq<Address> {
    if |assets| == 0 then assetList else assets
  }

  function ClaimAllOutcome(configs: map<Key, Config>, registry: map<Address, seq<Address>>, assetList: seq<Address>,
      streams: Streams, paused: bool, assets: seq<Address>, answers: map<Address, nat>, user: Address, now: nat)
    : Result<Gathered> {
    var _ :- Need(!paused, ContractPaused);
    var visited := AssetsToProcess(assetList, assets);
    var _ :- Need(|visited| <= MAX_CLAIMABLE_ASSETS, MaxAssetsExceeded);
    var g :- Gather(configs, answers, streams, AllKeys(registry, visited), user, now);
    var _ :- Need(forall t :: t in g.amounts ==> g.amounts[t] <= I128_MAX, MathOverflow);
    Ok(g)
  }

  /** A stream's state after the call is the one settled and emptied from its state before. */
  predicate EmptiedInto(configs: map<Key, Config>, answers: map<Address, nat>, before: Streams, after: Streams,
      key: Key,
                        user: Address, now: nat) {
    var e := EmptyAt(configs, answers, before, key, user, now);
    e.Ok? && At(after, key) == e.value.stream && AccruedAt(after, key, user) == 0
  }

  lemma EmptyAtClears(configs: map<Key, Config>, answers: map<Address, nat>, streams: Streams, key: Key,
      user: Address, now: nat)
    requires EmptyAt(configs, answers, streams, key, user, now).Ok?
    ensures EmptyAt(configs, answers, streams, key, user, now).value.stream.Of(user).accrued == 0
  {
    EmptyPaysOldAndNew(ConfigOf(configs, key), At(streams, key), user, Answer(answers, key.asset), now);
  }

  /**
   Claiming everything conserves: each visited stream is settled and emptied once, each reward token's
   payment is the sum over its distinct streams of the old and the newly settled, and nothing else moves.
   */
  lemma ClaimAllConserves(configs: map<Key, Config>, registry: map<Address, seq<Address>>, assetList: seq<Address>,
      streams: Streams, paused: bool, assets: seq<Address>, answers: map<Address, nat>, user: Address, now: nat,
          token: Address)
    requires ClaimAllOutcome(configs, registry, assetList, streams, paused, assets, answers, user, now).Ok?
    ensures var g := ClaimAllOutcome(configs, registry, assetList, streams, paused, assets, answers, user, now).value;
            var keys := AllKeys(registry, AssetsToProcess(assetList, assets));
            && Get(g.amounts, token) == Sum(Payments(configs, answers, streams, keys, user, now, token))
            && (forall k :: k in keys ==> EmptiedInto(configs, answers, streams, g.streams, k, user, now))
            && (forall k :: k !in keys ==> At(g.streams, k) == At(streams, k))
  {
    hide Gather, AllKeys, AssetsToProcess, EmptyAt, Payments, At;
    var g := ClaimAllOutcome(configs, registry, assetList, streams, paused, assets, answers, user, now).value;
    var keys := AllKeys(registry, AssetsToProcess(assetList, assets));
    GatherPaysDistinct(configs, answers, streams, keys, user, now, token);
    forall k ensures if k in keys then EmptiedInto(configs, answers, streams, g.streams, k, user, now)
                     else At(g.streams, k) == At(streams, k) {
      GatherEmptiesOnce(configs, answers, streams, keys, user, now, k);
      if k in keys {
        EmptyAtClears(configs, answers, streams, k, user, now);
      }
    }
  }

  // ------------------------------------------------------------------ what is reached, and what is accepted

  lemma {:induction false} KeysOfAre(asset: Address, tokens: seq<Address>, key: Key)
    ensures key in KeysOf(asset, tokens) <==>
            key.asset == asset && key.token in tokens && (key.kind == SUPPLY || key.kind == BORROW)
    decreases |tokens|
  {
    if tokens != [] {
      var last := |tokens| - 1;
      KeysOfAre(asset, tokens[..last], key);
      assert tokens == tokens[..last] + [tokens[last]];
    }
  }

  /** The streams visited are both kinds of every registered reward token of every listed asset. */
  lemma {:induction false} AllKeysAre(registry: map<Address, seq<Address>>, assets: seq<Address>, key: Key)
    ensures key in AllKeys(registry, assets) <==>
            && key.asset in assets && key.token in TokensOf(registry, key.asset)
            && (key.kind == SUPPLY || key.kind == BORROW)
    decreases |assets|
  {
    if assets != [] {
      var last := |assets| - 1;
      AllKeysAre(registry, assets[..last], key);
      KeysOfAre(assets[last], TokensOf(registry, assets[last]), key);
      assert assets == assets[..last] + [assets[last]];
      assert AllKeys(registry, assets)
          == AllKeys(registry, assets[..last]) + KeysOf(assets[last], TokensOf(registry, assets[last]));
    }
  }

  /** A stream is emptied when its asset is named, or when none is and the contract lists it; else it stays. */
  lemma ClaimAllReaches(configs: map<Key, Config>, registry: map<Address, seq<Address>>, assetList: seq<Address>,
      streams: Streams, paused: bool, assets: seq<Address>, answers: map<Address, nat>, user: Address, now: nat,
      key: Key)
    requires ClaimAllOutcome(configs, registry, assetList, streams, paused, assets, answers, user, now).Ok?
    ensures var after :=
              ClaimAllOutcome(configs, registry, assetList, streams, paused, assets, answers, user, now).value.streams;
            if (key.asset in assets || (assets == [] && key.asset in assetList))
               && key.token in TokensOf(registry, key.asset) && (key.kind == SUPPLY || key.kind == BORROW)
            then EmptiedInto(configs, answers, streams, after, key, user, now)
            else At(after, key) == At(streams, key)
  {
    ClaimAllConserves(configs, registry, assetList, streams, paused, assets, answers, user, now, key.token);
    AllKeysAre(registry, AssetsToProcess(assetList, assets), key);
    hide ClaimAllOutcome, AllKeys, EmptiedInto, At, Payments;
  }

  lemma EntriesFit(m: map<Address, nat>)
    ensures (forall t :: t in m ==> m[t] <= I128_MAX) <==> forall t :: Get(m, t) <= I128_MAX
  {
    if t :| t in m && m[t] > I128_MAX {
      assert Get(m, t) > I128_MAX;
    }
  }

  /** When the loops get through, the call fails only for a pause, too many assets, or a payment out of range. */
  lemma ClaimAllAccepted(configs: map<Key, Config>, registry: map<Address, seq<Address>>, assetList: seq<Address>,
      streams: Streams, paused: bool, assets: seq<Address>, answers: map<Address, nat>, user: Address, now: nat)
    requires Gather(configs, answers, streams, AllKeys(registry, AssetsToProcess(assetList, assets)), user, now).Ok?
    ensures var keys := AllKeys(registry, AssetsToProcess(assetList, assets));
            ClaimAllOutcome(configs, registry, assetList, streams, paused, assets, answers, user, now).Ok? <==>
              && !paused && |assets| <= MAX_CLAIMABLE_ASSETS
              && (assets == [] ==> |assetList| <= MAX_CLAIMABLE_ASSETS)
              && forall token :: Sum(Payments(configs, answers, streams, keys, user, now, token)) <= I128_MAX
  {
    hide Gather, AllKeys, Payments, Sum;
    var keys := AllKeys(registry, AssetsToProcess(assetList, assets));
    var g := Gather(configs, answers, streams, keys, user, now).value;
    forall token ensures Get(g.amounts, token) == Sum(Payments(configs, answers, streams, keys, user, now, token)) {
      GatherPaysDistinct(configs, answers, streams, keys, user, now, token);
    }
    EntriesFit(g.amounts);
  }

  lemma {:induction false} ClaimableDefined(streams: Streams, keys: seq<Key>, user: Address)
    requires NoRepeats(keys)
    ensures Claimable(streams, keys, user).Ok? <==> AccruedTotal(streams, keys, user) <= U128_MAX
    decreases |keys|
  {
    if keys == [] {
      assert Column(streams, keys, user) == map[];
    } else {
      var last := |keys| - 1;
      ClaimableDefined(streams, keys[..last], user);
      ColumnGrows(streams, keys[..last], keys[last], user);
      assert keys == keys[..last] + [keys[last]];
      if Claimable(streams, keys[..last], user).Ok? {
        ClaimableCounts(streams, keys[..last], user);
      }
    }
  }

  /** A claim on distinct assets is refused exactly for a pause, more than has accrued, or numbers out of range. */
  lemma ClaimAccepted(streams: Streams, paused: bool, assets: seq<Address>, token: Address, user: Address,
                      amount: nat)
    requires NoRepeats(assets)
    ensures var held := AccruedTotal(streams, KeysFor(assets, token), user);
            ClaimOutcome(streams, paused, assets, token, user, amount).Ok? <==>
              && !paused && amount <= held <= U128_MAX && (if amount == 0 then held else amount) <= I128_MAX
  {
    var keys := KeysFor(assets, token);
    DistinctAssetsDistinctKeys(assets, token);
    ClaimableDefined(streams, keys, user);
    if Claimable(streams, keys, user).Ok? {
      var total := Claimable(streams, keys, user).value;
      ClaimableCounts(streams, keys, user);
      DrainClaims(streams, keys, user, if amount == 0 then total else amount);
    }
    hide KeysFor, Drain, Claimable, NoRepeats, AccruedTotal;
  }

  lemma {:induction false} NothingDrained(streams: Streams, keys: seq<Key>, user: Address)
    ensures Drain(streams, keys, user, 0) == Drained(streams, 0)
    decreases |keys|
  {
    if keys != [] {
      NothingDrained(streams, keys[..|keys| - 1], user);
    }
  }

  lemma IndexOnly(config: Config, s: Stream, total: nat, now: nat)
    requires UpdateIndex(config, s, total, now).Ok?
    ensures UpdateIndex(config, s, total, now).value.users == s.users
  {
  }

  // ------------------------------------------------------------------ the contract

  /** Contract storage; `sent` is what the contract has transferred out, per reward token. */
  class RewardsController {
    var initialized: bool
    var paused: bool
    var configs: map<Key, Config>
    var registry: map<Address, seq<Address>>
    var assetList: seq<Address>
    var streams: Streams
    var sent: map<Address, nat>

    constructor ()
      ensures !initialized && !paused && configs == map[] && registry == map[] && assetList == []
      ensures streams == map[] && sent == map[]
    {
      initialized, paused, configs, registry, assetList := false, false, map[], map[], [];
      streams, sent := map[], map[];
    }

    /** Called by a token after it moved; a failure leaves no trace here and is ignored there. */
    method HandleAction(asset: Address, user: Address, total: nat, balance: nat, kind: nat, now: nat)
      returns (r: Result<()>)
      modifies this`streams
      ensures var all := ReportAll(configs, old(streams), asset, kind, TokensOf(registry, asset), user, total,
          balance, now);
              if !initialized then r == Err(NotInitialized) && streams == old(streams)
              else if kind != SUPPLY && kind != BORROW then r == Err(InvalidRewardType) && streams == old(streams)
              else if all.Err? then r == Err(all.error) && streams == old(streams)
              else r == Ok(()) && streams == all.value
    {
      hide Report;
      if !initialized {
        return Err(NotInitialized);
      }
      if kind != SUPPLY && kind != BORROW {
        return Err(InvalidRewardType);
      }
      var tokens := TokensOf(registry, asset);
      if |tokens| == 0 {
        return Ok(());
      }
      var stored := streams;
      for i := 0 to |tokens|
        invariant ReportAll(configs, streams, asset, kind, tokens[..i], user, total, balance, now) == Ok(stored)
      {
        assert tokens[..i + 1][..i] == tokens[..i];
        var key := Key(asset, tokens[i], kind);
        if key !in configs {
          continue;
        }
        var config := configs[key];
        if !config.active {
          continue;
        }
        var updated := Report(config, At(stored, key), user, total, balance, now);
        if updated.Err? {
          ReportAllFails(configs, streams, asset, kind, tokens, i + 1, user, total, balance, now);
          return Err(updated.error);
        }
        stored := stored[key := updated.value];
      }
      assert tokens[..|tokens|] == tokens;
      streams := stored;
      return Ok(());
    }

    /** Phase one of claim_rewards, a sum over both kinds of every listed asset. */
    method TotalClaimable(assets: seq<Address>, token: Address, user: Address) returns (r: Result<nat>)
      ensures r == Claimable(streams, KeysFor(assets, token), user)
    {
      hide Visited, AccruedAt, KeysFor;
      var total := 0;
      VisitedEnds(assets, token);
      for i := 0 to |assets|
        invariant Claimable(streams, Visited(assets, token, i, 0), user) == Ok(total)
      {
        for kind := 0 to 2
          invariant Claimable(streams, Visited(assets, token, i, kind), user) == Ok(total)
        {
          VisitNext(assets, token, i, kind);
          ghost var keys := Visited(assets, token, i, kind + 1);
          assert keys[..|keys| - 1] == Visited(assets, token, i, kind);
          var next := Fit(total + AccruedAt(streams, Key(assets[i], token, kind), user));
          if next.Err? {
            ghost var more := VisitedIsPrefix(assets, token, i, kind + 1);
            ClaimableFails(streams, keys, more, user);
            return Err(next.error);
          }
          total := next.value;
        }
        VisitNext(assets, token, i, 0);
      }
      return Ok(total);
    }

    /** Phase three: take from each entry until the goal is reached; both loops stop there. */
    method TakeUntil(assets: seq<Address>, token: Address, user: Address, goal: nat)
      returns (stored: Streams, claimed: nat)
      ensures Drained(stored, claimed) == Drain(streams, KeysFor(assets, token), user, goal)
    {
      hide Visited, KeysFor;
      stored, claimed := streams, 0;
      VisitedEnds(assets, token);
      for i := 0 to |assets|
        invariant Drained(stored, claimed) == Drain(streams, Visited(assets, token, i, 0), user, goal)
      {
        ghost var kinds := 0;
        for kind := 0 to 2
          invariant kinds == kind
          invariant Drained(stored, claimed) == Drain(streams, Visited(assets, token, i, kinds), user, goal)
        {
          if claimed >= goal {
            break;
          }
          VisitNext(assets, token, i, kind);
          ghost var keys := Visited(assets, token, i, kind + 1);
          assert keys[..|keys| - 1] == Visited(assets, token, i, kind);
          var key := Key(assets[i], token, kind);
          var remaining := goal - claimed;
          var accrued := AccruedAt(stored, key, user);
          var claimable := if remaining < accrued then remaining else accrued;
          if claimable > 0 {
            stored := stored[key := Take(At(stored, key), user, claimable)];
            claimed := claimed + claimable;
          }
          kinds := kind + 1;
        }
        if claimed >= goal {
          ghost var more := VisitedIsPrefix(assets, token, i, kinds);
          DrainStops(streams, Visited(assets, token, i, kinds), more, user, goal);
          return;
        }
        VisitNext(assets, token, i, 0);
      }
    }

    /** `transferOk` says whether the reward token carries out the transfer; if not, the host rolls back. */
    method ClaimRewards(caller: Address, assets: seq<Address>, token: Address, amount: nat, transferOk: bool)
      returns (r: Result<nat>)
      modifies this`streams, this`sent
      ensures var outcome := ClaimOutcome(old(streams), paused, assets, token, caller, amount);
              if outcome.Err? || (outcome.value.claimed > 0 && !transferOk) then
                r.Err? && streams == old(streams) && sent == old(sent)
              else
                && r == Ok(outcome.value.claimed) && streams == outcome.value.streams
                && Get(sent, token) == Get(old(sent), token) + outcome.value.claimed
                && (forall t :: t != token ==> Get(sent, t) == Get(old(sent), t))
    {
      if paused {
        return Err(ContractPaused);
      }
      var total :- TotalClaimable(assets, token, caller);
      if amount > total {
        return Err(InsufficientRewards);
      }
      var goal := if amount == 0 then total else amount;
      if goal == 0 {
        NothingDrained(streams, KeysFor(assets, token), caller);
        return Ok(0);
      }
      var stored, claimed := TakeUntil(assets, token, caller, goal);
      if claimed > 0 {
        var _ :- FitSigned(claimed);
        if !transferOk {
          return Err(ExternalCallFailed);
        }
        sent := sent[token := Get(sent, token) + claimed];
      }
      streams := stored;
      return Ok(claimed);
    }

    /** One stream's turn: settle it if it is active and the token answered, then empty it. */
    method VisitKind(g: Gathered, key: Key, user: Address, answers: map<Address, nat>, now: nat)
      returns (r: Result<Gathered>)
      ensures r == GatherOne(configs, answers, g, key, user, now)
    {
      hide AccruedRewards, UpdateIndex;
      var total := Answer(answers, key.asset);
      var s := At(g.streams, key);
      var d := s.Of(user);
      var stored, amounts := g.streams, g.amounts;
      if key in configs {
        var config := configs[key];
        if config.active && total > 0 {
          s :- UpdateIndex(config, s, total, now);
          IndexOnly(config, At(g.streams, key), total, now);
          var gained :- AccruedRewards(s.index, d.indexSnapshot, d.balanceSnapshot);
          var accrued :- Fit(d.accrued + gained);
          d := UserData(accrued, s.index, d.balanceSnapshot);
          s := s.(users := s.users[user := d]);
          stored := stored[key := s];
        }
      }
      if d.accrued > 0 {
        var claimable := d.accrued;
        d := d.(accrued := 0);
        s := s.(users := s.users[user := d]);
        stored := stored[key := s];
        var amount :- Fit(Get(amounts, key.token) + claimable);
        amounts := amounts[key.token := amount];
      }
      assert key in stored && stored != g.streams ==> stored == g.streams[key := s];
      return Ok(Gathered(stored, amounts));
    }

    /** Both kinds of one reward token. */
    method VisitToken(begun: Gathered, asset: Address, token: Address, user: Address, answers: map<Address, nat>,
        now: nat)
      returns (r: Result<Gathered>)
      ensures r == GatherFrom(configs, answers, begun, Pair(asset, token), user, now)
    {
      hide GatherOne;
      var g := begun;
      for kind := 0 to 2
        invariant GatherFrom(configs, answers, begun, Pair(asset, token)[..kind], user, now) == Ok(g)
      {
        ghost var pair := Pair(asset, token);
        assert pair[..kind + 1][..kind] == pair[..kind];
        var next := VisitKind(g, Key(asset, token, kind), user, answers, now);
        if next.Err? {
          GatherAppend(configs, answers, begun, pair[..kind + 1], pair[kind + 1..], user, now);
          assert pair[..kind + 1] + pair[kind + 1..] == pair;
          return next;
        }
        g := next.value;
      }
      assert Pair(asset, token)[..2] == Pair(asset, token);
      return Ok(g);
    }

    method VisitAsset(begun: Gathered, asset: Address, user: Address, answers: map<Address, nat>, now: nat)
      returns (r: Result<Gathered>)
      ensures r == GatherFrom(configs, answers, begun, KeysOf(asset, TokensOf(registry, asset)), user, now)
    {
      hide GatherOne;
      var tokens := TokensOf(registry, asset);
      var g := begun;
      for j := 0 to |tokens|
        invariant GatherFrom(configs, answers, begun, KeysOf(asset, tokens[..j]), user, now) == Ok(g)
      {
        assert tokens[..j + 1][..j] == tokens[..j];
        ghost var before := KeysOf(asset, tokens[..j]);
        GatherAppend(configs, answers, begun, before, Pair(asset, tokens[j]), user, now);
        var next := VisitToken(g, asset, tokens[j], user, answers, now);
        if next.Err? {
          ghost var more := KeysOfSplit(asset, tokens, j + 1);
          GatherAppend(configs, answers, begun, KeysOf(asset, tokens[..j + 1]), more, user, now);
          return next;
        }
        g := next.value;
      }
      assert tokens[..|tokens|] == tokens;
      return Ok(g);
    }

    method GatherRewards(assets: seq<Address>, user: Address, answers: map<Address, nat>, now: nat)
      returns (r: Result<Gathered>)
      ensures r == Gather(configs, answers, streams, AllKeys(registry, assets), user, now)
    {
      hide GatherOne, KeysOf;
      var begun := Gathered(streams, map[]);
      var g := begun;
      for i := 0 to |assets|
        invariant GatherFrom(configs, answers, begun, AllKeys(registry, assets[..i]), user, now) == Ok(g)
      {
        assert assets[..i + 1][..i] == assets[..i];
        ghost var next := KeysOf(assets[i], TokensOf(registry, assets[i]));
        GatherAppend(configs, answers, begun, AllKeys(registry, assets[..i]), next, user, now);
        var visited := VisitAsset(g, assets[i], user, answers, now);
        if visited.Err? {
          ghost var more := AllKeysSplit(registry, assets, i + 1);
          GatherAppend(configs, answers, begun, AllKeys(registry, assets[..i + 1]), more, user, now);
          return visited;
        }
        g := visited.value;
      }
      assert assets[..|assets|] == assets;
      return Ok(g);
    }

    /** One transfer per reward token; an amount that does not fit stops them all. */
    method Transfers(amounts: map<Address, nat>) returns (r: Result<map<Address, nat>>)
      ensures r.Ok? <==> forall t :: t in amounts ==> amounts[t] <= I128_MAX
      ensures r.Err? ==> r == Err(MathOverflow)
      ensures r.Ok? ==> forall t :: Get(r.value, t) == Get(sent, t) + Get(amounts, t)
    {
      var paid: map<Address, nat> := sent;
      var rest := amounts.Keys;
      while rest != {}
        invariant rest <= amounts.Keys
        invariant forall t :: Get(paid, t) == Get(sent, t) + if t in rest then 0 else Get(amounts, t)
        invariant forall t :: t in amounts.Keys - rest ==> amounts[t] <= I128_MAX
        decreases |rest|
      {
        var token :| token in rest;
        if amounts[token] > 0 {
          var _ :- FitSigned(amounts[token]);
          paid := paid[token := Get(paid, token) + amounts[token]];
        }
        rest := rest - {token};
      }
      return Ok(paid);
    }

    /** `answers` holds the totals the tokens reported; `transferOk` whether the transfers go through. */
    method ClaimAllRewards(caller: Address, assets: seq<Address>, answers: map<Address, nat>, transferOk: bool,
        now: nat)
      returns (r: Result<()>)
      modifies this`streams, this`sent
      ensures var outcome := ClaimAllOutcome(configs, registry, assetList, old(streams), paused, assets, answers,
          caller, now);
              if outcome.Err? || (outcome.value.amounts != map[] && !transferOk) then
                r.Err? && streams == old(streams) && sent == old(sent)
              else
                && r == Ok(()) && streams == outcome.value.streams
                && (forall t :: Get(sent, t) == Get(old(sent), t) + Get(outcome.value.amounts, t))
    {
      hide Gather, AllKeys;
      if paused {
        return Err(ContractPaused);
      }
      var visited := AssetsToProcess(assetList, assets);
      if |visited| > MAX_CLAIMABLE_ASSETS {
        return Err(MaxAssetsExceeded);
      }
      var g :- GatherRewards(visited, caller, answers, now);
      var paid :- Transfers(g.amounts);
      if g.amounts != map[] && !transferOk {
        return Err(ExternalCallFailed);
      }
      streams, sent := g.streams, paid;
      return Ok(());
    }
  }
}
