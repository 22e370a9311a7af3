/**
 * Outbound delivery and its health tracking: the block check before a send,
 * the reaction to a failed send (block the recipient on the platform's
 * "recipient not allowed" code and alert the admin, at most once per TTL),
 * and the fan-out of a broadcast.
 *
 * The network send itself is not modelled: its outcomes arrive as the input
 * stream `net`, one outcome per attempted send, in the order the model makes
 * the attempts; an exhausted stream reads as delivered. Within a broadcast
 * the model places each blocked-recipient alert right after the failed send
 * that caused it, while the program issues every body send before any
 * alert; the resulting state is the same, only the order of the sends
 * differs. The clock reading `now`
 * is an input too, the same for every step of one incoming message.
 */
module Delivery {
  import opened Wrappers
  import opened Seqs
  import opened Messages

  /** How long a blocked recipient stays blocked, and how far apart admin alerts about one recipient are: 15 minutes. */
  const BlockTtlMs: nat := 15 * 60 * 1000

  /** The platform's error code for a recipient that is not in the allowed list. */
  const RecipientNotAllowed: int := 131030

  datatype BlockEntry = BlockEntry(code: int, timestamp: nat)

  /** The recipient-health state: current blocks, and when the admin was last alerted about each recipient. */
  datatype Health = Health(blocked: map<string, BlockEntry>, adminNotified: map<string, nat>)

  datatype SendOptions = SendOptions(skipNotifyAdmin: bool, allowBlocked: bool)

  /** The options of an ordinary reply. */
  const Plain: SendOptions := SendOptions(false, false)

  /** The options of an alert to the admin: no further alert, and no block check. */
  const AlertOptions: SendOptions := SendOptions(true, true)

  /** The state after some sends, what they did, and the outcomes not yet used. */
  datatype Sent = Sent(health: Health, effects: seq<Effect>, rest: seq<Outcome>)

  /** The next send's outcome, and the outcomes after it. */
  function NextOutcome(net: seq<Outcome>): (Outcome, seq<Outcome>)
  {
    if |net| == 0 then (Delivered, []) else (net[0], net[1..])
  }

  /**
   * A send to `to` is skipped: a block entry exists and the TTL has not run
   * past it. The handler compares with `>`, so a block still holds at
   * exactly the TTL.
   */
  predicate Blocked(h: Health, to: string, now: nat)
  {
    to in h.blocked && now - h.blocked[to].timestamp <= BlockTtlMs
  }

  /** When the admin was last alerted about `to`; a missing entry reads as 0. */
  function LastNotified(h: Health, to: string): nat
  {
    if to in h.adminNotified then h.adminNotified[to] else 0
  }

  /** An admin alert about `to` is due: the last one is at least a TTL old. */
  predicate AlertDue(h: Health, to: string, now: nat)
  {
    now - LastNotified(h, to) >= BlockTtlMs
  }

  /**
   * A failed send with outcome `o` calls for an admin alert: the code is
   * "recipient not allowed", the send was not itself an alert, an admin is
   * configured, the recipient is not the admin, and the throttle allows it.
   */
  predicate AlertWanted(admin: string, h: Health, to: string, o: Outcome, skip: bool, now: nat)
  {
    && o == Failed(RecipientNotAllowed)
    && !skip && admin != "" && to != admin
    && AlertDue(h, to, now)
  }

  datatype Gated = Gated(admitted: bool, health: Health)

  /**
   * The block check at the start of a send: without `allowBlocked`, a live
   * block skips the send; an expired one is deleted and the send goes ahead.
   */
  function Gate(h: Health, to: string, now: nat, allowBlocked: bool): (g: Gated)
    ensures g.admitted <==> allowBlocked || !Blocked(h, to, now)
    ensures g.health.adminNotified == h.adminNotified
    ensures g.health.blocked == if !allowBlocked && to in h.blocked && !Blocked(h, to, now)
                                then h.blocked - {to} else h.blocked
    ensures forall p :: Blocked(g.health, p, now) <==> Blocked(h, p, now)
  {
    if allowBlocked || to !in h.blocked then Gated(true, h)
    else if now - h.blocked[to].timestamp > BlockTtlMs then Gated(true, h.(blocked := h.blocked - {to}))
    else Gated(false, h)
  }

  /**
   * `sendText(to, body, opts)`: the block check, then the attempt. An alert
   * carries `skipNotifyAdmin`, so it never alerts again: one message causes
   * at most two sends.
   */
  function SendText(admin: string, h: Health, to: string, body: Body, opts: SendOptions,
                    now: nat, net: seq<Outcome>): (s: Sent)
    ensures |s.effects| <= if opts.skipNotifyAdmin then 1 else 2
    ensures |s.effects| > 0 <==> opts.allowBlocked || !Blocked(h, to, now)
    ensures |s.effects| > 0 ==> s.effects[0] == Dispatch(to, body, NextOutcome(net).0)
    ensures forall i :: 1 <= i < |s.effects| ==>
              s.effects[i].Dispatch? && s.effects[i].to == admin && s.effects[i].body == BlockedAlert(to)
    ensures |s.effects| == 0 ==> s.health == Gate(h, to, now, opts.allowBlocked).health && s.rest == net
    decreases if opts.skipNotifyAdmin then 0 else 1, 1
  {
    var g := Gate(h, to, now, opts.allowBlocked);
    if !g.admitted then Sent(g.health, [], net)
    else Attempt(admin, g.health, to, body, opts.skipNotifyAdmin, now, net)
  }

  /**
   * One delivery attempt and the reaction to its outcome. Only the
   * "recipient not allowed" code blocks the recipient; any other failure
   * changes nothing. The alert time is recorded before the alert is sent,
   * whatever the alert's own outcome.
   */
  function Attempt(admin: string, h: Health, to: string, body: Body, skip: bool,
                   now: nat, net: seq<Outcome>): (s: Sent)
    ensures 1 <= |s.effects| <= if skip then 1 else 2
    ensures s.effects[0] == Dispatch(to, body, NextOutcome(net).0)
    ensures |s.effects| == 2 <==> AlertWanted(admin, h, to, NextOutcome(net).0, skip, now)
    ensures |s.effects| == 2 ==>
              s.effects[1].Dispatch? && s.effects[1].to == admin && s.effects[1].body == BlockedAlert(to)
    decreases if skip then 0 else 1, 0
  {
    var (o, rest) := NextOutcome(net);
    var sent := [Dispatch(to, body, o)];
    match o
    case Delivered => Sent(h, sent, rest)
    case Failed(code) =>
      var h1 := if code == RecipientNotAllowed
                then h.(blocked := h.blocked[to := BlockEntry(code, now)]) else h;
      if !(code == RecipientNotAllowed && !skip && admin != "" && to != admin) then Sent(h1, sent, rest)
      else if now - LastNotified(h1, to) < BlockTtlMs then Sent(h1, sent, rest)
      else
        var h2 := h1.(adminNotified := h1.adminNotified[to := now]);
        var alert := SendText(admin, h2, admin, BlockedAlert(to), AlertOptions, now, rest);
        Sent(alert.health, sent + alert.effects, alert.rest)
  }

  /** A send is skipped exactly when its recipient is blocked, and a skipped send changes nothing but evictions. */
  lemma SkippedIffBlocked(admin: string, h: Health, to: string, body: Body, now: nat, net: seq<Outcome>)
    ensures SendText(admin, h, to, body, Plain, now, net).effects == [] <==> Blocked(h, to, now)
    ensures Blocked(h, to, now) ==> SendText(admin, h, to, body, Plain, now, net) == Sent(h, [], net)
  {
  }

  /** Any outcome other than "recipient not allowed" leaves the health state as it was. */
  lemma OtherOutcomeChangesNothing(admin: string, h: Health, to: string, body: Body, skip: bool,
                                   now: nat, net: seq<Outcome>)
    requires NextOutcome(net).0 != Failed(RecipientNotAllowed)
    ensures Attempt(admin, h, to, body, skip, now, net)
         == Sent(h, [Dispatch(to, body, NextOutcome(net).0)], NextOutcome(net).1)
  {
  }

  /**
   * A "recipient not allowed" failure blocks the recipient from now on,
   * the admin included, and stamps the admin-alert time exactly when an
   * alert goes out. No other recipient's alert time moves, and no block other
   * than the recipient's and the admin's changes.
   */
  lemma NotAllowedBlocks(admin: string, h: Health, to: string, body: Body, skip: bool,
                         now: nat, net: seq<Outcome>)
    requires NextOutcome(net).0 == Failed(RecipientNotAllowed)
    ensures var s := Attempt(admin, h, to, body, skip, now, net);
            && to in s.health.blocked && s.health.blocked[to] == BlockEntry(RecipientNotAllowed, now)
            && (|s.effects| == 2 ==> s.health.adminNotified == h.adminNotified[to := now])
            && (|s.effects| == 1 ==> s.health.adminNotified == h.adminNotified)
            && (forall p :: p != to && p != admin ==> (p in s.health.blocked <==> p in h.blocked))
            && (forall p :: p != to && p != admin && p in h.blocked ==> s.health.blocked[p] == h.blocked[p])
  {
    var (o, rest) := NextOutcome(net);
    var h1 := h.(blocked := h.blocked[to := BlockEntry(RecipientNotAllowed, now)]);
    if AlertWanted(admin, h, to, o, skip, now) {
      var h2 := h1.(adminNotified := h1.adminNotified[to := now]);
      var alert := SendText(admin, h2, admin, BlockedAlert(to), AlertOptions, now, rest);
      assert Gate(h2, admin, now, true).health == h2;
      var (o2, rest2) := NextOutcome(rest);
      assert alert.health == if o2 == Failed(RecipientNotAllowed)
                             then h2.(blocked := h2.blocked[admin := BlockEntry(RecipientNotAllowed, now)])
                             else h2;
    }
  }

  /**
   * After a "recipient not allowed" failure at time `t0`, every later plain
   * send to that recipient up to and including `t0` plus the TTL is skipped.
   */
  lemma BlockedForTtl(admin: string, h: Health, to: string, body: Body, t0: nat, net: seq<Outcome>,
                      t: nat, body2: Body, net2: seq<Outcome>)
    requires NextOutcome(net).0 == Failed(RecipientNotAllowed)
    requires t0 <= t <= t0 + BlockTtlMs
    ensures SendText(admin, Attempt(admin, h, to, body, false, t0, net).health, to, body2, Plain, t, net2).effects == []
  {
    NotAllowedBlocks(admin, h, to, body, false, t0, net);
  }

  /** Once the TTL has run past a block, the next plain send deletes it and goes out. */
  lemma BlockExpires(admin: string, h: Health, to: string, body: Body, now: nat, net: seq<Outcome>)
    requires to in h.blocked && now > h.blocked[to].timestamp + BlockTtlMs
    ensures var s := SendText(admin, h, to, body, Plain, now, net);
            |s.effects| > 0 && s.effects[0].to == to
  {
  }

  /**
   * Two "recipient not allowed" failures for the same recipient less than a
   * TTL apart give one admin alert: the second attempt sends nothing more.
   */
  lemma AlertThrottled(admin: string, h: Health, to: string, body: Body, t0: nat, net: seq<Outcome>,
                       t: nat, body2: Body, net2: seq<Outcome>)
    requires |Attempt(admin, h, to, body, false, t0, net).effects| == 2
    requires t0 <= t < t0 + BlockTtlMs
    ensures |Attempt(admin, Attempt(admin, h, to, body, false, t0, net).health, to, body2, false, t, net2).effects| == 1
  {
    NotAllowedBlocks(admin, h, to, body, false, t0, net);
  }

  /** The recipients of the sends in `effects` that carry `body`, in order. */
  function AttemptedWith(effects: seq<Effect>, body: Body): seq<string>
  {
    if |effects| == 0 then []
    else (if effects[0].Dispatch? && effects[0].body == body then [effects[0].to] else [])
         + AttemptedWith(effects[1..], body)
  }

  lemma AttemptedWithConcat(a: seq<Effect>, b: seq<Effect>, body: Body)
    ensures AttemptedWith(a + b, body) == AttemptedWith(a, body) + AttemptedWith(b, body)
  {
    if |a| == 0 {
      assert a + b == b;
    } else {
      assert (a + b)[0] == a[0];
      assert (a + b)[1..] == a[1..] + b;
      AttemptedWithConcat(a[1..], b, body);
    }
  }

  /**
   * The synchronous half of a broadcast: every non-empty recipient goes
   * through the block check in turn (each check may delete an expired
   * block); the admitted ones are returned.
   */
  function Admit(h: Health, ps: seq<string>, now: nat): (r: (seq<string>, Health))
    ensures forall p :: p in r.0 <==> p in ps && p != "" && !Blocked(h, p, now)
    ensures NoDup(ps) ==> NoDup(r.0)
    ensures forall p :: Blocked(r.1, p, now) <==> Blocked(h, p, now)
    ensures r.1.adminNotified == h.adminNotified
    decreases |ps|
  {
    if |ps| == 0 then ([], h)
    else if ps[0] == "" then Admit(h, ps[1..], now)
    else
      var g := Gate(h, ps[0], now, false);
      var next := Admit(g.health, ps[1..], now);
      assert forall p :: p in ps[1..] ==> p in ps;
      assert NoDup(ps) ==> ps[0] !in ps[1..] && NoDup(ps[1..]);
      (if g.admitted then [ps[0]] + next.0 else next.0, next.1)
  }

  /**
   * The asynchronous half of a broadcast: one attempt per admitted
   * recipient, in the order the sends were issued, each followed at once by
   * the reaction to its own outcome (the program issues all the body sends
   * first and reacts as the responses arrive).
   */
  function DeliverAll(admin: string, h: Health, ps: seq<string>, body: Body, now: nat,
                      net: seq<Outcome>): (s: Sent)
    ensures !body.BlockedAlert? ==> AttemptedWith(s.effects, body) == ps
    ensures forall i :: 0 <= i < |s.effects| ==>
              s.effects[i].Dispatch? && (s.effects[i].body == body || (s.effects[i].to == admin && s.effects[i].body.BlockedAlert?))
    decreases |ps|
  {
    if |ps| == 0 then Sent(h, [], net)
    else
      var a := Attempt(admin, h, ps[0], body, false, now, net);
      var b := DeliverAll(admin, a.health, ps[1..], body, now, a.rest);
      AttemptedWithConcat(a.effects, b.effects, body);
      assert !body.BlockedAlert? ==> AttemptedWith(a.effects, body) == [ps[0]] by {
        if !body.BlockedAlert? && |a.effects| == 2 {
          assert a.effects[1..][1..] == [];
        }
      }
      Sent(b.health, a.effects + b.effects, b.rest)
  }

  /**
   * `broadcastToStaff(body)`: every distinct non-empty whitelist entry is
   * checked once; each one not blocked gets exactly one send of the body.
   * Every other send is an admin alert about a failed recipient, and no
   * failure stops the broadcast.
   */
  function Broadcast(admin: string, h: Health, whitelist: seq<string>, body: Body, now: nat,
                     net: seq<Outcome>): (s: Sent)
    ensures !body.BlockedAlert? ==> NoDup(AttemptedWith(s.effects, body))
    ensures !body.BlockedAlert? ==>
              forall p :: p in AttemptedWith(s.effects, body) <==> p in whitelist && p != "" && !Blocked(h, p, now)
    ensures forall i :: 0 <= i < |s.effects| ==>
              s.effects[i].Dispatch? && (s.effects[i].body == body || (s.effects[i].to == admin && s.effects[i].body.BlockedAlert?))
  {
    var unique := Dedup(whitelist);
    var admitted := Admit(h, unique, now);
    DeliverAll(admin, admitted.1, admitted.0, body, now, net)
  }
}
