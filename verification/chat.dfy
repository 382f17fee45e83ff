/**
  The chat feed: a bounded, append-only log of normal and threat messages,
  its two self-rescheduling spawners, masking and the two pulse flags.

  Random choices arrive as draws in [0, 1), `Date.now()` as `now`, and the
  meter values the spawners read as arguments. Every call the feed makes
  into the economy is returned, in order, as a list of `Call`s.
 */
module Chat {
  import opened Common
  import opened Config
  import opened GameStore
  import Difficulty

  datatype ThreatType = HateSpeech | Dox

  type Sentiment = s: int | -1 <= s <= 1

  datatype ChatMessage = ChatMessage(
    id: nat,
    username: string,
    color: string,
    text: string,
    isThreat: bool,
    threatType: Option<ThreatType>,
    isMasked: bool,
    falsePositive: bool,
    correctMask: bool,
    spawnedAt: int,
    redTriggered: bool,
    flashTriggered: bool,
    sentiment: Sentiment)

  /** An entry of the normal-message table: its text and the sentiment it applies. */
  datatype NormalEntry = NormalEntry(text: string, sentiment: Sentiment)

  /** An entry of the threat-message table. */
  datatype ThreatEntry = ThreatEntry(text: string, threatType: ThreatType)

  /** The content tables messages are drawn from. */
  datatype Pools = Pools(
    normal: seq<NormalEntry>,
    threats: seq<ThreatEntry>,
    usernames: seq<string>,
    colors: seq<string>)
  {
    predicate Valid() {
      |normal| > 0 && |threats| > 0 && |usernames| > 0 && |colors| > 0
    }
  }

  /** The three draws one new message consumes: table entry, username, colour. */
  datatype Picks = Picks(entry: real, username: real, color: real) {
    predicate Valid() {
      IsDraw(entry) && IsDraw(username) && IsDraw(color)
    }
  }

  /** `Math.floor(draw * n)`: an index into a table of `n` entries. */
  function RandomIndex(n: nat, draw: real): (i: nat)
    requires n > 0 && IsDraw(draw)
    ensures i < n
  {
    Portion(draw, n as real).Floor
  }

  function RandomItem<T>(table: seq<T>, draw: real): (x: T)
    requires |table| > 0 && IsDraw(draw)
    ensures x in table
  {
    table[RandomIndex(|table|, draw)]
  }

  /** None of the one-shot or pulse flags of a message is set. */
  predicate Unflagged(m: ChatMessage) {
    !m.isMasked && !m.falsePositive && !m.correctMask && !m.redTriggered && !m.flashTriggered
  }

  function CreateNormalMessage(pools: Pools, id: nat, p: Picks): (m: ChatMessage)
    requires pools.Valid() && p.Valid()
    ensures m.id == id && Unflagged(m)
    ensures !m.isThreat && m.threatType.None? && m.spawnedAt == 0
    ensures NormalEntry(m.text, m.sentiment) in pools.normal
    ensures m.username in pools.usernames && m.color in pools.colors
  {
    var entry := RandomItem(pools.normal, p.entry);
    ChatMessage(id, RandomItem(pools.usernames, p.username), RandomItem(pools.colors, p.color),
                entry.text, false, None, false, false, false, 0, false, false, entry.sentiment)
  }

  function CreateThreatMessage(pools: Pools, id: nat, p: Picks, now: int): (m: ChatMessage)
    requires pools.Valid() && p.Valid()
    ensures m.id == id && Unflagged(m)
    ensures m.isThreat && m.sentiment == 0 && m.spawnedAt == now
    ensures m.threatType.Some? && ThreatEntry(m.text, m.threatType.value) in pools.threats
    ensures m.username in pools.usernames && m.color in pools.colors
  {
    var entry := RandomItem(pools.threats, p.entry);
    ChatMessage(id, RandomItem(pools.usernames, p.username), RandomItem(pools.colors, p.color),
                entry.text, true, Some(entry.threatType), false, false, false, now, false, false, 0)
  }

  /**
    The feed's state. `nextId` is the id counter; it lives outside the
    store of the TypeScript chat store, so clearing the feed never resets it.
   */
  datatype ChatStore = ChatStore(
    messages: seq<ChatMessage>,
    nextId: nat,
    normalTimer: Timer,
    threatTimer: Timer)

  /** An empty feed, no spawner armed, ids starting at 0. */
  const Initial: ChatStore := ChatStore([], 0, NoTimer, NoTimer)

  /** The feed after an operation, with the calls it made into the economy. */
  datatype ChatStep = ChatStep(store: ChatStore, calls: seq<Call>)

  /** Ids increase strictly from oldest to newest. */
  predicate IdsIncreasing(msgs: seq<ChatMessage>) {
    forall i, j | 0 <= i < j < |msgs| :: msgs[i].id < msgs[j].id
  }

  /** Every id lies below `bound`. */
  predicate IdsBelow(msgs: seq<ChatMessage>, bound: nat) {
    forall i | 0 <= i < |msgs| :: msgs[i].id < bound
  }

  /** Ids increase strictly from oldest to newest, and all lie below the counter. */
  predicate IdsOrdered(c: ChatStore) {
    IdsIncreasing(c.messages) && IdsBelow(c.messages, c.nextId)
  }

  /** Appending a message carrying the counter's id, then keeping any suffix, keeps ids ordered. */
  lemma PushKeepsIdsOrdered(msgs: seq<ChatMessage>, m: ChatMessage, next: nat, k: nat)
    requires k <= |msgs| + 1
    ensures IdsIncreasing(msgs) && IdsBelow(msgs, next) && m.id == next ==>
      IdsIncreasing((msgs + [m])[k..]) && IdsBelow((msgs + [m])[k..], next + 1)
  {
    if !(IdsIncreasing(msgs) && IdsBelow(msgs, next) && m.id == next) {
      return;
    }
    var all := msgs + [m];
    assert IdsIncreasing(all) by {
      forall i, j | 0 <= i < j < |all|
        ensures all[i].id < all[j].id
      {
        if j < |msgs| {
          assert all[i] == msgs[i] && all[j] == msgs[j];
        } else {
          assert all[i] == msgs[i];
        }
      }
    }
    assert IdsBelow(all, next + 1) by {
      forall i | 0 <= i < |all|
        ensures all[i].id < next + 1
      {
        if i < |msgs| {
          assert all[i] == msgs[i];
        }
      }
    }
    var tail := all[k..];
    forall i, j | 0 <= i < j < |tail|
      ensures tail[i].id < tail[j].id
    {
      assert tail[i] == all[k + i] && tail[j] == all[k + j];
    }
    forall i | 0 <= i < |tail|
      ensures tail[i].id < next + 1
    {
      assert tail[i] == all[k + i];
    }
  }

  // ---------------------------------------------------------------------------
  // Unmasked threats and trimming

  /** A threat the player has not masked: evicting it counts as a miss. */
  predicate UnmaskedThreat(m: ChatMessage) {
    m.isThreat && !m.isMasked
  }

  /** Number of unmasked threats in a run of messages. */
  function UnmaskedThreats(msgs: seq<ChatMessage>): (n: nat)
    ensures n <= |msgs|
  {
    if |msgs| == 0 then 0
    else UnmaskedThreats(msgs[..|msgs| - 1]) + (if UnmaskedThreat(msgs[|msgs| - 1]) then 1 else 0)
  }

  /** Counting unmasked threats distributes over concatenation. */
  lemma {:induction false} UnmaskedThreatsAppend(a: seq<ChatMessage>, b: seq<ChatMessage>)
    ensures UnmaskedThreats(a + b) == UnmaskedThreats(a) + UnmaskedThreats(b)
    decreases |b|
  {
    if |b| == 0 {
      assert a + b == a;
    } else {
      var b' := b[..|b| - 1];
      assert (a + b)[..|a + b| - 1] == a + b';
      UnmaskedThreatsAppend(a, b');
    }
  }

  /** The outcome of trimming: the messages kept and the number of threats that expired. */
  datatype Trimmed = Trimmed(kept: seq<ChatMessage>, expired: nat)

  /**
    Trim the log to `CHAT_MAX_MESSAGES`, dropping the oldest messages; each
    unmasked threat among them has expired.
   */
  function TrimMessages(msgs: seq<ChatMessage>): (r: Trimmed)
    ensures |msgs| <= ChatMaxMessages ==> r == Trimmed(msgs, 0)
    ensures |msgs| > ChatMaxMessages ==> |r.kept| == ChatMaxMessages
    ensures |r.kept| <= |msgs| && r.kept == msgs[|msgs| - |r.kept|..]
    ensures r.expired == UnmaskedThreats(msgs[..|msgs| - |r.kept|])
    ensures UnmaskedThreats(msgs) == r.expired + UnmaskedThreats(r.kept)
  {
    if |msgs| <= ChatMaxMessages then
      assert msgs[..0] == [];
      assert msgs[0..] == msgs;
      Trimmed(msgs, 0)
    else
      var cut := |msgs| - ChatMaxMessages;
      var removed := msgs[..cut];
      var kept := msgs[cut..];
      assert removed + kept == msgs;
      UnmaskedThreatsAppend(removed, kept);
      Trimmed(kept, UnmaskedThreats(removed))
  }

  /** The counting loop over the evicted messages, as the TypeScript chat store writes it. */
  method CountExpired(removed: seq<ChatMessage>) returns (expired: nat)
    ensures expired == UnmaskedThreats(removed)
  {
    expired := 0;
    var i := 0;
    while i < |removed|
      invariant 0 <= i <= |removed|
      invariant expired == UnmaskedThreats(removed[..i])
    {
      assert removed[..i + 1][..i] == removed[..i];
      if removed[i].isThreat && !removed[i].isMasked {
        expired := expired + 1;
      }
      i := i + 1;
    }
    assert removed[..i] == removed;
  }

  /** Every call in the list is a missed-threat report. */
  predicate AllMisses(calls: seq<Call>) {
    forall i | 0 <= i < |calls| :: calls[i] == MissedThreat
  }

  /**
    Push a new message (it takes the counter's id), trim, and report every
    expired threat to the economy. Each unmasked threat of the old log and
    of the new message either stays in the log or is reported missed
    exactly once.
   */
  function Push(c: ChatStore, m: ChatMessage): (r: ChatStep)
    ensures |r.store.messages| == if |c.messages| < ChatMaxMessages then |c.messages| + 1 else ChatMaxMessages
    ensures r.store.messages == (c.messages + [m])[|c.messages| + 1 - |r.store.messages|..]
    ensures r.store.messages[|r.store.messages| - 1] == m
    ensures AllMisses(r.calls)
    ensures |r.calls| + UnmaskedThreats(r.store.messages)
            == UnmaskedThreats(c.messages) + (if UnmaskedThreat(m) then 1 else 0)
    ensures r.store.nextId == c.nextId + 1
    ensures r.store.normalTimer == c.normalTimer && r.store.threatTimer == c.threatTimer
    ensures IdsOrdered(c) && m.id == c.nextId ==> IdsOrdered(r.store)
  {
    var trimmed := TrimMessages(c.messages + [m]);
    PushAccounting(c.messages, m);
    assert |trimmed.kept| == if |c.messages| < ChatMaxMessages then |c.messages| + 1 else ChatMaxMessages;
    PushKeepsIdsOrdered(c.messages, m, c.nextId, |c.messages| + 1 - |trimmed.kept|);
    ChatStep(c.(messages := trimmed.kept, nextId := c.nextId + 1), Repeat(MissedThreat, trimmed.expired))
  }

  lemma PushAccounting(msgs: seq<ChatMessage>, m: ChatMessage)
    ensures var t := TrimMessages(msgs + [m]);
      && |t.kept| == (if |msgs| < ChatMaxMessages then |msgs| + 1 else ChatMaxMessages)
      && t.kept[|t.kept| - 1] == m
      && t.expired + UnmaskedThreats(t.kept) == UnmaskedThreats(msgs) + (if UnmaskedThreat(m) then 1 else 0)
  {
    UnmaskedThreatsAppend(msgs, [m]);
    assert [m][..0] == [];
  }

  /**
    Append one normal message, apply its sentiment once, then trim.
    The new message is the newest of the log and the log stays within its cap
    whenever it was within it before.
   */
  function AddNormalMessage(c: ChatStore, pools: Pools, p: Picks): (r: ChatStep)
    requires pools.Valid() && p.Valid()
    ensures |r.store.messages| > 0 && |r.calls| > 0
    ensures |r.store.messages| == if |c.messages| < ChatMaxMessages then |c.messages| + 1 else ChatMaxMessages
    ensures var m := CreateNormalMessage(pools, c.nextId, p);
      && r.store.messages == (c.messages + [m])[|c.messages| + 1 - |r.store.messages|..]
      && r.calls[0] == ApplySentiment(m.sentiment)
    ensures AllMisses(r.calls[1..])
    ensures |r.calls| - 1 + UnmaskedThreats(r.store.messages) == UnmaskedThreats(c.messages)
    ensures |c.messages| <= ChatMaxMessages ==> |r.store.messages| <= ChatMaxMessages
    ensures r.store.nextId == c.nextId + 1
    ensures r.store.normalTimer == c.normalTimer && r.store.threatTimer == c.threatTimer
    ensures IdsOrdered(c) ==> IdsOrdered(r.store)
  {
    var m := CreateNormalMessage(pools, c.nextId, p);
    var pushed := Push(c, m);
    var calls := [ApplySentiment(m.sentiment)] + pushed.calls;
    assert calls[1..] == pushed.calls;
    ChatStep(pushed.store, calls)
  }

  /** Append one threat message and trim; no sentiment is applied. */
  function AddThreatMessage(c: ChatStore, pools: Pools, p: Picks, now: int): (r: ChatStep)
    requires pools.Valid() && p.Valid()
    ensures |r.store.messages| > 0
    ensures |r.store.messages| == if |c.messages| < ChatMaxMessages then |c.messages| + 1 else ChatMaxMessages
    ensures var m := CreateThreatMessage(pools, c.nextId, p, now);
      r.store.messages == (c.messages + [m])[|c.messages| + 1 - |r.store.messages|..]
    ensures AllMisses(r.calls)
    ensures |r.calls| + UnmaskedThreats(r.store.messages) == UnmaskedThreats(c.messages) + 1
    ensures |c.messages| <= ChatMaxMessages ==> |r.store.messages| <= ChatMaxMessages
    ensures r.store.nextId == c.nextId + 1
    ensures r.store.normalTimer == c.normalTimer && r.store.threatTimer == c.threatTimer
    ensures IdsOrdered(c) ==> IdsOrdered(r.store)
  {
    Push(c, CreateThreatMessage(pools, c.nextId, p, now))
  }

  // ---------------------------------------------------------------------------
  // Masking and pulse flags

  /** `messages.find(m => m.id === id)`: the index of the first message with this id. */
  function FindIndex(msgs: seq<ChatMessage>, id: nat): (r: Option<nat>)
    ensures r.Some? ==> r.value < |msgs| && msgs[r.value].id == id
    ensures r.Some? ==> forall j | 0 <= j < r.value :: msgs[j].id != id
    ensures r.None? ==> forall j | 0 <= j < |msgs| :: msgs[j].id != id
  {
    if |msgs| == 0 then None
    else if msgs[0].id == id then Some(0)
    else
      match FindIndex(msgs[1..], id)
      case None => None
      case Some(k) => Some(k + 1)
  }

  /** Masking `id` would take effect: the message is present and not yet masked. */
  predicate CanMask(c: ChatStore, id: nat) {
    var i := FindIndex(c.messages, id);
    i.Some? && !c.messages[i.value].isMasked
  }

  /** The feed after masking, and the spawn time handed back (0 when nothing was masked). */
  datatype Masked = Masked(store: ChatStore, spawnedAt: int)

  /**
    Mask a message at most once. On success only that message's `isMasked`
    changes and its spawn time is returned; otherwise nothing changes and 0
    is returned. Either way, masking the same id again can no longer succeed.
   */
  function MaskMessage(c: ChatStore, id: nat): (r: Masked)
    ensures |r.store.messages| == |c.messages| && r.store.nextId == c.nextId
    ensures !CanMask(r.store, id)
    ensures !CanMask(c, id) ==> r == Masked(c, 0)
    ensures CanMask(c, id) ==> var i := FindIndex(c.messages, id).value;
      && r.spawnedAt == c.messages[i].spawnedAt
      && r.store.messages == c.messages[i := c.messages[i].(isMasked := true)]
    ensures r.store.normalTimer == c.normalTimer && r.store.threatTimer == c.threatTimer
    ensures forall j | 0 <= j < |c.messages| ::
      r.store.messages[j].(isMasked := c.messages[j].isMasked) == c.messages[j]
    ensures UnmaskedThreats(r.store.messages) + (if CanMask(c, id) && c.messages[FindIndex(c.messages, id).value].isThreat then 1 else 0)
            == UnmaskedThreats(c.messages)
    ensures IdsOrdered(c) ==> IdsOrdered(r.store)
  {
    var i := FindIndex(c.messages, id);
    if i.Some? && !c.messages[i.value].isMasked then
      var k := i.value;
      var msgs := c.messages[k := c.messages[k].(isMasked := true)];
      MaskAt(c.messages, k, id, c.nextId);
      Masked(c.(messages := msgs), c.messages[k].spawnedAt)
    else
      Masked(c, 0)
  }

  /** Setting `isMasked` on the first match `k` of `id`: what changes and what is kept. */
  lemma MaskAt(msgs: seq<ChatMessage>, k: nat, id: nat, bound: nat)
    requires k < |msgs| && FindIndex(msgs, id) == Some(k) && !msgs[k].isMasked
    ensures var m := msgs[k := msgs[k].(isMasked := true)];
      && FindIndex(m, id) == Some(k)
      && (forall j | 0 <= j < |msgs| :: m[j].(isMasked := msgs[j].isMasked) == msgs[j])
      && UnmaskedThreats(m) + (if msgs[k].isThreat then 1 else 0) == UnmaskedThreats(msgs)
      && (IdsIncreasing(msgs) ==> IdsIncreasing(m))
      && (IdsBelow(msgs, bound) ==> IdsBelow(m, bound))
  {
    var m := msgs[k := msgs[k].(isMasked := true)];
    assert m[k].(isMasked := msgs[k].isMasked) == msgs[k];
    UnmaskedAfterMask(msgs, k);
    FindIndexIgnoresFlags(msgs, m, id);
    SameIdsKeepOrder(msgs, m, bound);
  }

  /** Changing flags of messages, but not their ids, does not move the first match of an id. */
  lemma {:induction false} FindIndexIgnoresFlags(a: seq<ChatMessage>, b: seq<ChatMessage>, id: nat)
    requires |a| == |b| && forall j | 0 <= j < |a| :: a[j].id == b[j].id
    ensures FindIndex(a, id) == FindIndex(b, id)
    decreases |a|
  {
    if |a| > 0 && a[0].id != id {
      FindIndexIgnoresFlags(a[1..], b[1..], id);
    }
  }

  /** Masking message `k` removes exactly one unmasked threat when it was one. */
  lemma {:induction false} UnmaskedAfterMask(msgs: seq<ChatMessage>, k: nat)
    requires k < |msgs| && !msgs[k].isMasked
    ensures UnmaskedThreats(msgs[k := msgs[k].(isMasked := true)]) + (if msgs[k].isThreat then 1 else 0)
            == UnmaskedThreats(msgs)
  {
    var masked := msgs[k := msgs[k].(isMasked := true)];
    assert msgs == msgs[..k] + [msgs[k]] + msgs[k + 1..];
    assert masked == msgs[..k] + [masked[k]] + msgs[k + 1..];
    UnmaskedThreatsAppend(msgs[..k] + [msgs[k]], msgs[k + 1..]);
    UnmaskedThreatsAppend(msgs[..k], [msgs[k]]);
    UnmaskedThreatsAppend(msgs[..k] + [masked[k]], msgs[k + 1..]);
    UnmaskedThreatsAppend(msgs[..k], [masked[k]]);
  }

  /** A second mask of the same id is a no-op returning 0. */
  lemma MaskTwice(c: ChatStore, id: nat)
    ensures MaskMessage(MaskMessage(c, id).store, id) == Masked(MaskMessage(c, id).store, 0)
  {
  }

  /** With ordered ids, masking succeeds exactly when an unmasked message with that id is present. */
  lemma MaskSucceedsIff(c: ChatStore, id: nat)
    requires IdsOrdered(c)
    ensures CanMask(c, id) <==> exists j | 0 <= j < |c.messages| :: c.messages[j].id == id && !c.messages[j].isMasked
  {
    if j :| 0 <= j < |c.messages| && c.messages[j].id == id && !c.messages[j].isMasked {
      var i := FindIndex(c.messages, id);
      assert i.Some?;
      assert i.value == j by {
        if i.value < j {
        } else if i.value > j {
        }
      }
    }
  }

  /** The two cosmetic pulse flags a mask decision sets on a message. */
  datatype Pulse = CorrectMask | FalsePositive

  /**
    Set one pulse flag on the message with this id, if present; nothing
    else changes. (The 400 ms timed reset of the flag is cosmetic and not
    modelled.)
   */
  function Flag(c: ChatStore, id: nat, pulse: Pulse): (r: ChatStore)
    ensures |r.messages| == |c.messages| && r.nextId == c.nextId
    ensures r.normalTimer == c.normalTimer && r.threatTimer == c.threatTimer
    ensures FindIndex(c.messages, id).None? ==> r == c
    ensures FindIndex(c.messages, id).Some? ==> var i := FindIndex(c.messages, id).value;
      r.messages == c.messages[i := Pulsed(c.messages[i], pulse)]
    ensures forall j | 0 <= j < |c.messages| ::
      r.messages[j].(correctMask := c.messages[j].correctMask, falsePositive := c.messages[j].falsePositive) == c.messages[j]
    ensures forall j | 0 <= j < |c.messages| && FindIndex(c.messages, id) != Some(j) :: r.messages[j] == c.messages[j]
    ensures IdsOrdered(c) ==> IdsOrdered(r)
  {
    match FindIndex(c.messages, id)
    case None => c
    case Some(i) =>
      var msgs := c.messages[i := Pulsed(c.messages[i], pulse)];
      SameIdsKeepOrder(c.messages, msgs, c.nextId);
      c.(messages := msgs)
  }

  /** Two logs whose ids agree position by position are ordered alike. */
  lemma SameIdsKeepOrder(a: seq<ChatMessage>, b: seq<ChatMessage>, bound: nat)
    requires |a| == |b| && forall j | 0 <= j < |a| :: a[j].id == b[j].id
    ensures IdsIncreasing(a) ==> IdsIncreasing(b)
    ensures IdsBelow(a, bound) ==> IdsBelow(b, bound)
  {
  }

  /** The message with one pulse flag raised and every other field as it was. */
  function Pulsed(m: ChatMessage, pulse: Pulse): (r: ChatMessage)
    ensures pulse == CorrectMask ==> r == m.(correctMask := true)
    ensures pulse == FalsePositive ==> r == m.(falsePositive := true)
    ensures r.(correctMask := m.correctMask, falsePositive := m.falsePositive) == m
  {
    match pulse
    case CorrectMask => m.(correctMask := true)
    case FalsePositive => m.(falsePositive := true)
  }

  // ---------------------------------------------------------------------------
  // Spawners and lifecycle

  /** Arm the normal-message timer with the current viewer-scaled delay. */
  function ScheduleNormal(c: ChatStore, t: Tuning, viewers: real, draw: real): (r: ChatStore)
    requires t.Valid() && IsDraw(draw)
    ensures r.normalTimer.live == Some(Difficulty.NormalDelay(t, viewers, draw))
    ensures r.normalTimer.Queued() == c.normalTimer.Queued() + 1
    ensures r.(normalTimer := c.normalTimer) == c
  {
    c.(normalTimer := c.normalTimer.Arm(Difficulty.NormalDelay(t, viewers, draw)))
  }

  /** Arm the threat timer with the current viewer- and time-scaled delay. */
  function ScheduleThreat(c: ChatStore, t: Tuning, m: Meters, now: int, draw: real): (r: ChatStore)
    requires t.Valid() && IsDraw(draw) && Difficulty.RatioDefined(t, m.startTime, now)
    ensures r.threatTimer.live == Some(Difficulty.ThreatDelay(t, m.viewers, m.startTime, now, draw))
    ensures r.threatTimer.Queued() == c.threatTimer.Queued() + 1
    ensures r.(threatTimer := c.threatTimer) == c
  {
    c.(threatTimer := c.threatTimer.Arm(Difficulty.ThreatDelay(t, m.viewers, m.startTime, now, draw)))
  }

  /** The normal timer fires: add a normal message, then schedule the next one. */
  function OnNormalTimer(c: ChatStore, pools: Pools, p: Picks, t: Tuning, viewers: real, stale: bool, draw: real): (r: ChatStep)
    requires pools.Valid() && p.Valid() && t.Valid() && IsDraw(draw) && c.normalTimer.CanFire(stale)
    ensures r.store.normalTimer.live == Some(Difficulty.NormalDelay(t, viewers, draw))
    ensures r.store.normalTimer.Queued() == c.normalTimer.Queued()
    ensures r.store.(normalTimer := c.normalTimer) == AddNormalMessage(c, pools, p).store
    ensures r.calls == AddNormalMessage(c, pools, p).calls
  {
    var added := AddNormalMessage(c.(normalTimer := c.normalTimer.Fire(stale)), pools, p);
    ChatStep(ScheduleNormal(added.store, t, viewers, draw), added.calls)
  }

  /** The threat timer fires: add a threat message, then schedule the next one. */
  function OnThreatTimer(c: ChatStore, pools: Pools, p: Picks, t: Tuning, m: Meters, now: int, stale: bool, draw: real): (r: ChatStep)
    requires pools.Valid() && p.Valid() && t.Valid() && IsDraw(draw) && c.threatTimer.CanFire(stale)
    requires Difficulty.RatioDefined(t, m.startTime, now)
    ensures r.store.threatTimer.live == Some(Difficulty.ThreatDelay(t, m.viewers, m.startTime, now, draw))
    ensures r.store.threatTimer.Queued() == c.threatTimer.Queued()
    ensures r.store.(threatTimer := c.threatTimer) == AddThreatMessage(c, pools, p, now).store
    ensures r.calls == AddThreatMessage(c, pools, p, now).calls
  {
    var added := AddThreatMessage(c.(threatTimer := c.threatTimer.Fire(stale)), pools, p, now);
    ChatStep(ScheduleThreat(added.store, t, m, now, draw), added.calls)
  }

  /** Number of normal messages seeded when the chat starts. */
  const SeedCount: nat := 8

  /**
    The messages the seeding loop creates: one normal message per set of
    picks, with consecutive ids from `firstId`.
   */
  function SeedMessages(pools: Pools, firstId: nat, seeds: seq<Picks>): (r: seq<ChatMessage>)
    requires pools.Valid() && forall i | 0 <= i < |seeds| :: seeds[i].Valid()
    ensures |r| == |seeds|
    ensures forall i | 0 <= i < |seeds| :: r[i] == CreateNormalMessage(pools, firstId + i, seeds[i])
    decreases |seeds|
  {
    if |seeds| == 0 then []
    else
      var rest := SeedMessages(pools, firstId + 1, seeds[1..]);
      assert forall i | 1 <= i < |seeds| :: seeds[1..][i - 1] == seeds[i];
      [CreateNormalMessage(pools, firstId, seeds[0])] + rest
  }

  /** From position `from` on, the log holds normal messages with consecutive ids starting at `firstId`. */
  predicate SeededAfter(msgs: seq<ChatMessage>, from: nat, firstId: nat) {
    forall i | from <= i < |msgs| :: !msgs[i].isThreat && msgs[i].id == firstId + (i - from)
  }

  /** Appending messages that carry the next ids in order keeps the ids ordered. */
  lemma AppendConsecutiveKeepsIdsOrdered(msgs: seq<ChatMessage>, added: seq<ChatMessage>, next: nat)
    requires IdsIncreasing(msgs) && IdsBelow(msgs, next)
    requires SeededAfter(msgs + added, |msgs|, next)
    ensures IdsIncreasing(msgs + added) && IdsBelow(msgs + added, next + |added|)
  {
    var all := msgs + added;
    forall i, j | 0 <= i < j < |all| ensures all[i].id < all[j].id {
      if j < |msgs| {
        assert all[i] == msgs[i] && all[j] == msgs[j];
      } else if i < |msgs| {
        assert all[i] == msgs[i];
      }
    }
  }

  /** Push one normal message per set of picks, applying no sentiment and not trimming. */
  function Seed(c: ChatStore, pools: Pools, seeds: seq<Picks>): (r: ChatStore)
    requires pools.Valid() && forall i | 0 <= i < |seeds| :: seeds[i].Valid()
    ensures |r.messages| == |c.messages| + |seeds| && r.messages[..|c.messages|] == c.messages
    ensures r.nextId == c.nextId + |seeds|
    ensures SeededAfter(r.messages, |c.messages|, c.nextId)
    ensures forall i | 0 <= i < |seeds| ::
      r.messages[|c.messages| + i] == CreateNormalMessage(pools, c.nextId + i, seeds[i])
    ensures r.normalTimer == c.normalTimer && r.threatTimer == c.threatTimer
    ensures IdsOrdered(c) ==> IdsOrdered(r)
  {
    var added := SeedMessages(pools, c.nextId, seeds);
    var msgs := c.messages + added;
    assert msgs[..|c.messages|] == c.messages;
    assert forall i | 0 <= i < |seeds| :: msgs[|c.messages| + i] == added[i];
    assert SeededAfter(msgs, |c.messages|, c.nextId) by {
      forall i | |c.messages| <= i < |msgs|
        ensures !msgs[i].isThreat && msgs[i].id == c.nextId + (i - |c.messages|)
      {
        assert msgs[i] == added[i - |c.messages|];
      }
    }
    var seeded := c.(messages := msgs, nextId := c.nextId + |seeds|);
    assert IdsOrdered(c) ==> IdsOrdered(seeded) by {
      if IdsOrdered(c) {
        AppendConsecutiveKeepsIdsOrdered(c.messages, added, c.nextId);
      }
    }
    seeded
  }

  /**
    Seed eight normal messages (no sentiment applied, no trimming), then arm
    both spawners.
   */
  function StartChat(c: ChatStore, pools: Pools, seeds: seq<Picks>, t: Tuning, m: Meters, now: int,
                     normalDraw: real, threatDraw: real): (r: ChatStep)
    requires pools.Valid() && t.Valid() && IsDraw(normalDraw) && IsDraw(threatDraw)
    requires |seeds| == SeedCount && forall i | 0 <= i < |seeds| :: seeds[i].Valid()
    requires Difficulty.RatioDefined(t, m.startTime, now)
    ensures r.calls == []
    ensures |r.store.messages| == |c.messages| + SeedCount && r.store.messages[..|c.messages|] == c.messages
    ensures SeededAfter(r.store.messages, |c.messages|, c.nextId)
    ensures r.store.messages[|c.messages|..] == SeedMessages(pools, c.nextId, seeds)
    ensures r.store.nextId == c.nextId + SeedCount
    ensures r.store.normalTimer.live == Some(Difficulty.NormalDelay(t, m.viewers, normalDraw))
    ensures r.store.threatTimer.live == Some(Difficulty.ThreatDelay(t, m.viewers, m.startTime, now, threatDraw))
    ensures r.store.normalTimer.Queued() == c.normalTimer.Queued() + 1
    ensures r.store.threatTimer.Queued() == c.threatTimer.Queued() + 1
    ensures IdsOrdered(c) ==> IdsOrdered(r.store)
  {
    var seeded := Seed(c, pools, seeds);
    var armed := ScheduleThreat(ScheduleNormal(seeded, t, m.viewers, normalDraw), t, m, now, threatDraw);
    assert armed.messages == seeded.messages && armed.nextId == seeded.nextId;
    ChatStep(armed, [])
  }

  /** Cancel both spawners; the log is kept. */
  function StopChat(c: ChatStore): (r: ChatStore)
    ensures r.normalTimer.live.None? && r.threatTimer.live.None?
    ensures r.normalTimer.orphans == c.normalTimer.orphans && r.threatTimer.orphans == c.threatTimer.orphans
    ensures r.messages == c.messages && r.nextId == c.nextId
  {
    c.(normalTimer := c.normalTimer.Clear(), threatTimer := c.threatTimer.Clear())
  }

  /** Cancel both spawners and empty the log; the id counter keeps counting. */
  function ClearChat(c: ChatStore): (r: ChatStore)
    ensures r.messages == [] && r.nextId == c.nextId
    ensures r.normalTimer.live.None? && r.threatTimer.live.None?
    ensures r.normalTimer.orphans == c.normalTimer.orphans && r.threatTimer.orphans == c.threatTimer.orphans
    ensures IdsOrdered(r)
  {
    StopChat(c).(messages := [])
  }
}
