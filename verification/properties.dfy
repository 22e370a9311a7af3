/**
 * What the handler promises over one message and over a run of messages:
 * who may change the state, what an unknown sender causes, how often the
 * admin hears about one unknown phone, and what each command does to the
 * state it owns.
 */
module HandlerProperties {
  import opened Wrappers
  import opened Strings
  import opened Seqs
  import opened DigitRun
  import opened Classifier
  import opened Store
  import opened Messages
  import opened Delivery
  import opened Handler

  /** A body that is neither the access denial nor an unknown-sender alert. */
  predicate OrdinaryBody(b: Body)
  {
    !b.AccessDenied? && !b.UnknownSenderAlert?
  }

  /** No send in `effects` is a denial or an unknown-sender alert. */
  predicate OrdinaryEffects(effects: seq<Effect>)
  {
    forall i :: 0 <= i < |effects| && effects[i].Dispatch? ==> OrdinaryBody(effects[i].body)
  }

  /** No send in `effects` is an unknown-sender alert. */
  predicate NoUnknownAlert(effects: seq<Effect>)
  {
    forall i :: 0 <= i < |effects| && effects[i].Dispatch? ==> !effects[i].body.UnknownSenderAlert?
  }

  /** How many unknown-sender alerts about phone `p` the effects hold. */
  function UnknownAlertsAbout(effects: seq<Effect>, p: string): nat
  {
    if |effects| == 0 then 0
    else (if effects[0].Dispatch? && effects[0].body.UnknownSenderAlert? && effects[0].body.phone == p then 1 else 0)
         + UnknownAlertsAbout(effects[1..], p)
  }

  lemma {:induction false} UnknownAlertsConcat(a: seq<Effect>, b: seq<Effect>, p: string)
    ensures UnknownAlertsAbout(a + b, p) == UnknownAlertsAbout(a, p) + UnknownAlertsAbout(b, p)
    decreases |a|
  {
    if |a| == 0 {
      assert a + b == b;
    } else {
      assert (a + b)[0] == a[0];
      assert (a + b)[1..] == a[1..] + b;
      UnknownAlertsConcat(a[1..], b, p);
    }
  }

  /** Sends without unknown-sender alerts count none about any phone. */
  lemma {:induction false} OrdinaryHasNoUnknownAlerts(effects: seq<Effect>, p: string)
    requires NoUnknownAlert(effects)
    ensures UnknownAlertsAbout(effects, p) == 0
    decreases |effects|
  {
    if |effects| > 0 {
      assert NoUnknownAlert(effects[1..]) by {
        forall i | 0 <= i < |effects[1..]| && effects[1..][i].Dispatch?
          ensures !effects[1..][i].body.UnknownSenderAlert?
        {
          assert effects[1..][i] == effects[i + 1];
        }
      }
      OrdinaryHasNoUnknownAlerts(effects[1..], p);
    }
  }

  /** A plain reply with an ordinary body adds only ordinary sends. */
  lemma ReplyOrdinary(cfg: Config, ctx: Context, to: string, body: Body, prior: seq<Effect>,
                      now: nat, net: seq<Outcome>)
    requires OrdinaryBody(body) && OrdinaryEffects(prior)
    ensures OrdinaryEffects(Reply(cfg, ctx, to, body, prior, now, net).effects)
  {
    var s := SendText(cfg.adminPhone, ctx.health, to, body, Plain, now, net);
    var e := Reply(cfg, ctx, to, body, prior, now, net).effects;
    assert e == prior + s.effects;
    forall i | 0 <= i < |e| && e[i].Dispatch?
      ensures OrdinaryBody(e[i].body)
    {
      if i >= |prior| {
        assert e[i] == s.effects[i - |prior|];
      }
    }
  }

  /**
   * A known sender's command never sends a denial or an unknown-sender
   * alert and leaves the set of alerted phones as it was.
   */
  lemma CommandOrdinary(cfg: Config, ctx: Context, phone: string, role: Role, text: string,
                        now: nat, net: seq<Outcome>, ai: (Role, string) -> string)
    ensures OrdinaryEffects(Command(cfg, ctx, phone, role, text, now, net, ai).effects)
    ensures Command(cfg, ctx, phone, role, text, now, net, ai).ctx.unknownAlerts == ctx.unknownAlerts
  {
    var a := Perform(cfg, ctx, phone, role, Classify(Normalize(text), role), text, now, net, ai);
    assert OrdinaryEffects(a.prior) by {
      forall i | 0 <= i < |a.prior| && a.prior[i].Dispatch?
        ensures OrdinaryBody(a.prior[i].body)
      {
        assert a.prior[i].body == BroadcastBody(text) || a.prior[i].body.BlockedAlert?;
      }
    }
    ReplyOrdinary(cfg, a.ctx, phone, a.reply, a.prior, now, a.rest);
  }

  /**
   * A message from a phone that is neither the admin's nor whitelisted
   * changes no shift, report or whitelist entry; its phone is remembered as
   * alerted when an admin is configured; the sender gets the denial unless
   * they are blocked; and every send is the denial to the sender or an
   * alert about the sender to the admin.
   */
  lemma UnknownSenderIsDenied(cfg: Config, ctx: Context, payload: Payload, now: nat, net: seq<Outcome>,
                              ai: (Role, string) -> string)
    requires SenderInfo(payload).hasMessage && SenderInfo(payload).phone != ""
    requires !Authorised(cfg, ctx, SenderInfo(payload).phone)
    ensures var s := SenderInfo(payload);
            var r := HandleIncoming(cfg, ctx, payload, now, net, ai);
            && r.ctx.shifts == ctx.shifts && r.ctx.reports == ctx.reports && r.ctx.whitelist == ctx.whitelist
            && r.ctx.unknownAlerts == (if cfg.adminPhone == "" then ctx.unknownAlerts else ctx.unknownAlerts + {s.phone})
            && (forall i :: 0 <= i < |r.effects| ==>
                  r.effects[i].Dispatch?
                  && ((r.effects[i].to == s.phone && r.effects[i].body == AccessDenied)
                      || (r.effects[i].to == cfg.adminPhone
                          && (r.effects[i].body == UnknownSenderAlert(s.phone, Preview(s.text))
                              || r.effects[i].body == BlockedAlert(s.phone)))))
            && (!Blocked(ctx.health, s.phone, now) ==>
                  exists i :: 0 <= i < |r.effects| && r.effects[i].Dispatch?
                              && r.effects[i].to == s.phone && r.effects[i].body == AccessDenied)
  {
    var s := SenderInfo(payload);
    var n := NotifyAdminOfUnknownStaff(cfg, ctx, s.phone, s.text, now, net);
    var d := SendText(cfg.adminPhone, n.ctx.health, s.phone, AccessDenied, Plain, now, n.rest);
    var r := HandleIncoming(cfg, ctx, payload, now, net, ai);
    assert r.effects == n.effects + d.effects;
    forall i | 0 <= i < |r.effects|
      ensures r.effects[i].Dispatch?
      ensures (r.effects[i].to == s.phone && r.effects[i].body == AccessDenied)
              || (r.effects[i].to == cfg.adminPhone
                  && (r.effects[i].body == UnknownSenderAlert(s.phone, Preview(s.text))
                      || r.effects[i].body == BlockedAlert(s.phone)))
    {
      if i >= |n.effects| {
        assert r.effects[i] == d.effects[i - |n.effects|];
      }
    }
    if !Blocked(ctx.health, s.phone, now) {
      assert !Blocked(n.ctx.health, s.phone, now);
      assert r.effects[|n.effects|] == d.effects[0];
    }
  }

  /** A payload without a message or without a sender phone changes nothing and sends nothing. */
  lemma IgnoredPayload(cfg: Config, ctx: Context, payload: Payload, now: nat, net: seq<Outcome>,
                       ai: (Role, string) -> string)
    requires !SenderInfo(payload).hasMessage || SenderInfo(payload).phone == ""
    ensures HandleIncoming(cfg, ctx, payload, now, net, ai) == Step(ctx, [], net)
  {
  }

  /**
   * A message from the admin or a whitelisted phone never causes a denial
   * or an unknown-sender alert and does not touch the set of alerted phones.
   */
  lemma KnownSenderIsNotDenied(cfg: Config, ctx: Context, payload: Payload, now: nat, net: seq<Outcome>,
                               ai: (Role, string) -> string)
    requires Authorised(cfg, ctx, SenderInfo(payload).phone)
    ensures var r := HandleIncoming(cfg, ctx, payload, now, net, ai);
            OrdinaryEffects(r.effects) && r.ctx.unknownAlerts == ctx.unknownAlerts
  {
    var s := SenderInfo(payload);
    if s.hasMessage && s.phone != "" {
      CommandOrdinary(cfg, ctx, s.phone, RoleOf(cfg, s.phone), s.text, now, net, ai);
    }
  }

  /**
   * One message causes at most one unknown-sender alert about any phone,
   * none about a phone already alerted, and an alert only after the phone
   * has been remembered; the remembered set only grows.
   */
  lemma StepUnknownAlerts(cfg: Config, ctx: Context, payload: Payload, now: nat, net: seq<Outcome>,
                          ai: (Role, string) -> string, p: string)
    ensures var r := HandleIncoming(cfg, ctx, payload, now, net, ai);
            && ctx.unknownAlerts <= r.ctx.unknownAlerts
            && UnknownAlertsAbout(r.effects, p) <= (if p in ctx.unknownAlerts then 0 else 1)
            && (UnknownAlertsAbout(r.effects, p) > 0 ==> p in r.ctx.unknownAlerts)
  {
    var s := SenderInfo(payload);
    var r := HandleIncoming(cfg, ctx, payload, now, net, ai);
    if !s.hasMessage || s.phone == "" {
    } else if !Authorised(cfg, ctx, s.phone) {
      var n := NotifyAdminOfUnknownStaff(cfg, ctx, s.phone, s.text, now, net);
      var d := SendText(cfg.adminPhone, n.ctx.health, s.phone, AccessDenied, Plain, now, n.rest);
      assert r.effects == n.effects + d.effects;
      UnknownAlertsConcat(n.effects, d.effects, p);
      OrdinaryHasNoUnknownAlerts(d.effects, p);
      if n.effects != [] {
        assert n.effects[1..] == [];
      }
    } else {
      KnownSenderIsNotDenied(cfg, ctx, payload, now, net, ai);
      OrdinaryHasNoUnknownAlerts(r.effects, p);
    }
  }

  /**
   * Over any run of messages the admin is alerted about an unknown phone at
   * most once, and not at all when it was alerted before the run.
   */
  lemma {:induction false} AdminAlertedOncePerPhone(cfg: Config, ctx: Context, events: seq<Event>,
                                                    ai: (Role, string) -> string, p: string)
    ensures UnknownAlertsAbout(Run(cfg, ctx, events, ai).effects, p) <= if p in ctx.unknownAlerts then 0 else 1
    decreases |events|
  {
    if |events| > 0 {
      var e := events[0];
      var s := HandleIncoming(cfg, ctx, e.payload, e.now, e.outcomes, ai);
      var rest := Run(cfg, s.ctx, events[1..], ai);
      StepUnknownAlerts(cfg, ctx, e.payload, e.now, e.outcomes, ai, p);
      AdminAlertedOncePerPhone(cfg, s.ctx, events[1..], ai, p);
      UnknownAlertsConcat(s.effects, rest.effects, p);
    }
  }

  /**
   * One message keeps the whitelist well formed, never removes or reorders
   * an entry, and adds at most one.
   */
  lemma WhitelistGrowsWellFormed(cfg: Config, ctx: Context, payload: Payload, now: nat, net: seq<Outcome>,
                                 ai: (Role, string) -> string)
    requires WellFormedWhitelist(ctx.whitelist)
    ensures var r := HandleIncoming(cfg, ctx, payload, now, net, ai);
            && WellFormedWhitelist(r.ctx.whitelist)
            && ctx.whitelist <= r.ctx.whitelist
            && |r.ctx.whitelist| <= |ctx.whitelist| + 1
  {
    var s := SenderInfo(payload);
    if s.hasMessage && s.phone != "" && Authorised(cfg, ctx, s.phone) {
      var role := RoleOf(cfg, s.phone);
      var a := Perform(cfg, ctx, s.phone, role, Classify(Normalize(s.text), role), s.text, now, net, ai);
      assert HandleIncoming(cfg, ctx, payload, now, net, ai).ctx.whitelist == a.ctx.whitelist;
    }
  }

  /** Over any run of messages the whitelist stays well formed and only grows. */
  lemma {:induction false} RunKeepsWhitelist(cfg: Config, ctx: Context, events: seq<Event>,
                                             ai: (Role, string) -> string)
    requires WellFormedWhitelist(ctx.whitelist)
    ensures var r := Run(cfg, ctx, events, ai);
            WellFormedWhitelist(r.ctx.whitelist) && ctx.whitelist <= r.ctx.whitelist
    decreases |events|
  {
    if |events| > 0 {
      var e := events[0];
      var s := HandleIncoming(cfg, ctx, e.payload, e.now, e.outcomes, ai);
      WhitelistGrowsWellFormed(cfg, ctx, e.payload, e.now, e.outcomes, ai);
      RunKeepsWhitelist(cfg, s.ctx, events[1..], ai);
    }
  }

  /**
   * Reports are append-only: a message either leaves them as they were or,
   * when it is a known sender's report command, appends exactly that
   * report with the text as written and the current time.
   */
  lemma ReportsAppendOnly(cfg: Config, ctx: Context, payload: Payload, now: nat, net: seq<Outcome>,
                          ai: (Role, string) -> string)
    ensures var s := SenderInfo(payload);
            var r := HandleIncoming(cfg, ctx, payload, now, net, ai);
            var isReport := s.hasMessage && s.phone != "" && Authorised(cfg, ctx, s.phone)
                            && Classify(Normalize(s.text), RoleOf(cfg, s.phone)) == Classifier.Report;
            r.ctx.reports == if isReport then ctx.reports + [Store.Report(s.phone, s.text, now)] else ctx.reports
  {
  }

  /**
   * Only the sender's own shift record can change: a shift-start command
   * sets it on with the current start and no end, a shift-stop command sets
   * it off with the current end, keeping the start, and nothing else
   * touches the shifts.
   */
  lemma ShiftsChangeOnlyForSender(cfg: Config, ctx: Context, payload: Payload, now: nat, net: seq<Outcome>,
                                  ai: (Role, string) -> string)
    ensures var s := SenderInfo(payload);
            var r := HandleIncoming(cfg, ctx, payload, now, net, ai);
            var known := s.hasMessage && s.phone != "" && Authorised(cfg, ctx, s.phone);
            var intent := Classify(Normalize(s.text), RoleOf(cfg, s.phone));
            && (forall q :: q != s.phone ==> (q in r.ctx.shifts <==> q in ctx.shifts))
            && (forall q :: q != s.phone && q in ctx.shifts ==> r.ctx.shifts[q] == ctx.shifts[q])
            && (known && intent == ShiftStart ==>
                  s.phone in r.ctx.shifts && r.ctx.shifts[s.phone] == ShiftRecord(On, Some(now), None))
            && (known && intent == ShiftStop ==>
                  s.phone in r.ctx.shifts && r.ctx.shifts[s.phone].status == Off
                  && r.ctx.shifts[s.phone].endAt == Some(now)
                  && r.ctx.shifts[s.phone].startAt == (if s.phone in ctx.shifts then ctx.shifts[s.phone].startAt else None))
            && (!known || (intent != ShiftStart && intent != ShiftStop) ==> r.ctx.shifts == ctx.shifts)
  {
  }

  /**
   * The stats reply to a manager who is not blocked carries the number of
   * records that are on shift and the number of reports.
   */
  lemma StatsReplyCounts(cfg: Config, ctx: Context, payload: Payload, now: nat, net: seq<Outcome>,
                         ai: (Role, string) -> string)
    requires SenderInfo(payload).hasMessage && SenderInfo(payload).phone != ""
    requires SenderInfo(payload).phone == cfg.adminPhone
    requires Classify(Normalize(SenderInfo(payload).text), Manager) == Stats
    requires !Blocked(ctx.health, cfg.adminPhone, now)
    ensures var r := HandleIncoming(cfg, ctx, payload, now, net, ai);
            && |r.effects| >= 1
            && r.effects[0] == Dispatch(cfg.adminPhone, StatsReply(|OnShift(ctx.shifts)|, |ctx.reports|), NextOutcome(net).0)
            && r.ctx.shifts == ctx.shifts && r.ctx.reports == ctx.reports && r.ctx.whitelist == ctx.whitelist
  {
  }

  /**
   * The recipients of the broadcast text are exactly the distinct,
   * non-empty whitelist entries that were not blocked, each once.
   */
  ghost predicate ReachesEachOnce(recipients: seq<string>, whitelist: seq<string>, h: Health, now: nat)
  {
    NoDup(recipients)
    && forall p :: p in recipients <==> p in whitelist && p != "" && !Blocked(h, p, now)
  }

  /** Every send is the broadcast text, or goes to the admin as the confirmation or a failure alert. */
  predicate OnlyBroadcastSends(effects: seq<Effect>, b: Body, admin: string)
  {
    forall i :: 0 <= i < |effects| ==>
      effects[i].Dispatch?
      && (effects[i].body == b
          || (effects[i].to == admin && (effects[i].body == BroadcastSent || effects[i].body.BlockedAlert?)))
  }

  /**
   * The manager's broadcast sends its text once to every distinct,
   * non-empty, unblocked whitelist entry and to nobody else; every other
   * send is the confirmation to the manager or an alert to the admin about
   * a failed recipient.
   */
  lemma BroadcastReachesEachStaffOnce(cfg: Config, ctx: Context, payload: Payload, now: nat, net: seq<Outcome>,
                                      ai: (Role, string) -> string)
    requires SenderInfo(payload).hasMessage && SenderInfo(payload).phone != ""
    requires SenderInfo(payload).phone == cfg.adminPhone
    requires Classify(Normalize(SenderInfo(payload).text), Manager) == Classifier.Broadcast
    ensures var b := BroadcastBody(SenderInfo(payload).text);
            var r := HandleIncoming(cfg, ctx, payload, now, net, ai);
            && ReachesEachOnce(AttemptedWith(r.effects, b), ctx.whitelist, ctx.health, now)
            && OnlyBroadcastSends(r.effects, b, cfg.adminPhone)
  {
    var b := BroadcastBody(SenderInfo(payload).text);
    BroadcastStep(cfg, ctx, payload, now, net, ai);
    BroadcastWithConfirmation(cfg.adminPhone, ctx.health, ctx.whitelist, b, now, net);
  }

  /**
   * A broadcast followed by the confirmation to the admin: the text reaches
   * each distinct, non-empty, unblocked whitelist entry once, and every
   * other send goes to the admin.
   */
  lemma BroadcastWithConfirmation(admin: string, h: Health, whitelist: seq<string>, b: Body, now: nat,
                                  net: seq<Outcome>)
    requires b.Text?
    ensures var bc := Delivery.Broadcast(admin, h, whitelist, b, now, net);
            var e := bc.effects + SendText(admin, bc.health, admin, BroadcastSent, Plain, now, bc.rest).effects;
            ReachesEachOnce(AttemptedWith(e, b), whitelist, h, now) && OnlyBroadcastSends(e, b, admin)
  {
    var bc := Delivery.Broadcast(admin, h, whitelist, b, now, net);
    var confirm := SendText(admin, bc.health, admin, BroadcastSent, Plain, now, bc.rest).effects;
    BroadcastThenConfirm(admin, bc.effects, confirm, b);
  }

  /** The manager's broadcast command sends the broadcast, then the confirmation. */
  lemma BroadcastStep(cfg: Config, ctx: Context, payload: Payload, now: nat, net: seq<Outcome>,
                      ai: (Role, string) -> string)
    requires SenderInfo(payload).hasMessage && SenderInfo(payload).phone != ""
    requires SenderInfo(payload).phone == cfg.adminPhone
    requires Classify(Normalize(SenderInfo(payload).text), Manager) == Classifier.Broadcast
    ensures var bc := Delivery.Broadcast(cfg.adminPhone, ctx.health, ctx.whitelist,
                                         BroadcastBody(SenderInfo(payload).text), now, net);
            HandleIncoming(cfg, ctx, payload, now, net, ai).effects
            == bc.effects + SendText(cfg.adminPhone, bc.health, cfg.adminPhone, BroadcastSent, Plain, now, bc.rest).effects
  {
  }

  /** Appending the confirmation to a broadcast's sends adds no recipient of the broadcast text. */
  lemma BroadcastThenConfirm(admin: string, sent: seq<Effect>, confirm: seq<Effect>, b: Body)
    requires b.Text?
    requires forall i :: 0 <= i < |sent| ==>
               sent[i].Dispatch? && (sent[i].body == b || (sent[i].to == admin && sent[i].body.BlockedAlert?))
    requires forall i :: 0 <= i < |confirm| ==>
               confirm[i].Dispatch? && confirm[i].to == admin
               && (confirm[i].body == BroadcastSent || confirm[i].body.BlockedAlert?)
    ensures AttemptedWith(sent + confirm, b) == AttemptedWith(sent, b)
    ensures OnlyBroadcastSends(sent + confirm, b, admin)
  {
    AttemptedWithConcat(sent, confirm, b);
    NoneAttemptedWith(confirm, b);
    var e := sent + confirm;
    forall i | 0 <= i < |e|
      ensures e[i].Dispatch?
      ensures e[i].body == b || (e[i].to == admin && (e[i].body == BroadcastSent || e[i].body.BlockedAlert?))
    {
      if i >= |sent| {
        assert e[i] == confirm[i - |sent|];
      }
    }
  }

  /** Sends that all carry other bodies attempt nobody with `body`. */
  lemma {:induction false} NoneAttemptedWith(effects: seq<Effect>, body: Body)
    requires forall i :: 0 <= i < |effects| && effects[i].Dispatch? ==> effects[i].body != body
    ensures AttemptedWith(effects, body) == []
    decreases |effects|
  {
    if |effects| > 0 {
      assert forall i :: 0 <= i < |effects[1..]| ==> effects[1..][i] == effects[i + 1];
      NoneAttemptedWith(effects[1..], body);
    }
  }

  /**
   * The manager's add-staff command grows the whitelist as the store's
   * add-staff rule says, and the reply names the added phone or, when
   * nothing was added, gives the usage message.
   */
  lemma AddStaffCommand(cfg: Config, ctx: Context, payload: Payload, now: nat, net: seq<Outcome>,
                        ai: (Role, string) -> string)
    requires SenderInfo(payload).hasMessage && SenderInfo(payload).phone != ""
    requires SenderInfo(payload).phone == cfg.adminPhone
    requires Classify(Normalize(SenderInfo(payload).text), Manager) == Classifier.AddStaff
    ensures var s := SenderInfo(payload);
            var added := Store.AddStaff(ctx.whitelist, s.text);
            var r := HandleIncoming(cfg, ctx, payload, now, net, ai);
            && r.ctx.whitelist == added.0
            && (!Blocked(ctx.health, cfg.adminPhone, now) ==>
                  |r.effects| >= 1
                  && r.effects[0] == Dispatch(cfg.adminPhone, if added.1.Some? then StaffAdded(added.1.value) else AddUsage,
                                              NextOutcome(net).0))
  {
  }
}
