/**
 * The incoming-message handler as one step function: given the
 * configuration, the current context, one webhook payload, the clock and the
 * outcomes of the sends, it returns the next context and what the handler
 * sent and wrote. The AI fallback (the role's system prompt plus the
 * completion call) is the parameter `ai`.
 */
module Handler {
  import opened Wrappers
  import opened Strings
  import opened Seqs
  import opened DigitRun
  import opened Classifier
  import opened Store
  import opened Messages
  import opened Delivery

  /** The fields the handler reads from the first message of the first change of the first entry. */
  datatype InboundMessage = InboundMessage(from: Option<string>, textBody: Option<string>)

  /** A webhook payload, reduced to its first message (if any) and the first contact's profile name. */
  datatype Payload = Payload(message: Option<InboundMessage>, contactName: Option<string>)

  /** What `senderInfo` extracts. */
  datatype Sender = Sender(hasMessage: bool, phone: string, name: string, text: string)

  /** The contact name used when the payload carries none. */
  const DefaultName: string := "Сотрудник"

  /** Start-up configuration: the admin's phone, reduced to digits (empty when not configured). */
  datatype Config = Config(adminPhone: string)

  /** The whole mutable state of the handler. */
  datatype Context = Context(
    shifts: Shifts,
    reports: seq<Report>,
    whitelist: seq<string>,
    health: Health,
    unknownAlerts: set<string>)

  /** The context after one message, what was sent and written, and the unused send outcomes. */
  datatype Step = Step(ctx: Context, effects: seq<Effect>, rest: seq<Outcome>)

  /** `senderInfo`: the sender's phone is the digits of `from`; empty fields fall back to defaults. */
  function SenderInfo(p: Payload): (s: Sender)
    ensures AllDigits(s.phone)
    ensures s.hasMessage <==> p.message.Some?
    ensures p.message.Some? ==> s.phone == Digits(p.message.value.from.GetOr(""))
                                && s.text == p.message.value.textBody.GetOr("")
    ensures p.message.None? ==> s.phone == "" && s.text == ""
    ensures s.name == if p.contactName.Some? && p.contactName.value != "" then p.contactName.value else DefaultName
    ensures s.name != ""
  {
    var msg := p.message;
    var from := if msg.Some? then msg.value.from.GetOr("") else "";
    var text := if msg.Some? then msg.value.textBody.GetOr("") else "";
    var name := if p.contactName.Some? && p.contactName.value != "" then p.contactName.value else DefaultName;
    Sender(msg.Some?, Digits(from), name, text)
  }

  function MakeConfig(adminEnv: string): (c: Config)
    ensures AllDigits(c.adminPhone)
    ensures forall ch :: ch in c.adminPhone <==> ch in adminEnv && IsDigit(ch)
    ensures AllDigits(adminEnv) ==> c.adminPhone == adminEnv
  {
    Config(Digits(adminEnv))
  }

  /** The state at process start: nothing recorded, the whitelist built from the configured list. */
  function InitialContext(staffEnv: string): (c: Context)
    ensures WellFormedWhitelist(c.whitelist) && c.whitelist == BuildWhitelist(staffEnv)
    ensures c.shifts == map[] && c.reports == [] && c.unknownAlerts == {}
    ensures c.health.blocked == map[] && c.health.adminNotified == map[]
  {
    Context(map[], [], BuildWhitelist(staffEnv), Health(map[], map[]), {})
  }

  /** The sender is the manager exactly when their phone is the admin's. */
  function RoleOf(cfg: Config, phone: string): Role
  {
    if phone == cfg.adminPhone then Manager else Staff
  }

  /** Who may use the bot: the admin and the whitelisted staff. */
  predicate Authorised(cfg: Config, ctx: Context, phone: string)
  {
    phone == cfg.adminPhone || phone in ctx.whitelist
  }

  /** A plain reply to `to`, after the effects `prior` already produced. */
  function Reply(cfg: Config, ctx: Context, to: string, body: Body, prior: seq<Effect>,
                 now: nat, net: seq<Outcome>): (r: Step)
    ensures r.ctx == ctx.(health := r.ctx.health)
    ensures r.effects == prior + SendText(cfg.adminPhone, ctx.health, to, body, Plain, now, net).effects
  {
    var s := SendText(cfg.adminPhone, ctx.health, to, body, Plain, now, net);
    Step(ctx.(health := s.health), prior + s.effects, s.rest)
  }

  /**
   * `notifyAdminOfUnknownStaff`: the first message from an unknown phone
   * alerts the admin once, with a preview of the message; the phone is
   * marked before the alert is sent.
   */
  function NotifyAdminOfUnknownStaff(cfg: Config, ctx: Context, phone: string, text: string,
                                     now: nat, net: seq<Outcome>): (r: Step)
    ensures r.ctx == ctx.(health := r.ctx.health, unknownAlerts := r.ctx.unknownAlerts)
    ensures r.ctx.unknownAlerts == if cfg.adminPhone == "" then ctx.unknownAlerts else ctx.unknownAlerts + {phone}
    ensures r.effects == if cfg.adminPhone == "" || phone in ctx.unknownAlerts then []
                         else [Dispatch(cfg.adminPhone, UnknownSenderAlert(phone, Preview(text)), NextOutcome(net).0)]
    ensures forall q :: q != cfg.adminPhone ==> (Blocked(r.ctx.health, q, now) <==> Blocked(ctx.health, q, now))
  {
    if cfg.adminPhone == "" || phone in ctx.unknownAlerts then Step(ctx, [], net)
    else
      var ctx1 := ctx.(unknownAlerts := ctx.unknownAlerts + {phone});
      var s := SendText(cfg.adminPhone, ctx1.health, cfg.adminPhone, UnknownSenderAlert(phone, Preview(text)),
                        AlertOptions, now, net);
      Step(ctx1.(health := s.health), s.effects, s.rest)
  }

  /**
   * The broadcast text: every piece of the original message after the
   * first `:` or `-`, joined with `:`, and trimmed.
   */
  function BroadcastPayload(text: string): string
  {
    Trim(Join(Split(text, Separators)[1..], ':'))
  }

  /**
   * The broadcast text is the rest of the message after its first
   * separator, with every later separator turned into `:`, trimmed; a
   * message without a separator gives the empty text.
   */
  lemma BroadcastPayloadAfterSeparator(text: string, k: nat)
    requires k < |text| && text[k] in Separators && SepFree(text[..k], Separators)
    ensures BroadcastPayload(text) == Trim(Replace(text[k + 1..], Separators, ':'))
  {
    SplitAtFirst(text, Separators, k);
    assert Split(text, Separators)[1..] == Split(text[k + 1..], Separators);
    JoinSplit(text[k + 1..], Separators, ':');
  }

  /** Separators are not whitespace, so turning them into `:` keeps exactly the whitespace where it was. */
  lemma ReplaceKeepsSpace(rest: string)
    ensures forall i :: 0 <= i < |rest| ==> (IsSpace(Replace(rest, Separators, ':')[i]) <==> IsSpace(rest[i]))
  {
  }

  /** The characters after index `k` are those of the suffix `rest` from `k + 1`. */
  lemma SuffixAllSpace(text: string, k: nat, rest: string)
    requires k < |text| && rest == text[k + 1..]
    ensures (forall i :: k < i < |text| ==> IsSpace(text[i]))
        <==> (forall i :: 0 <= i < |rest| ==> IsSpace(rest[i]))
  {
    if forall i :: 0 <= i < |rest| ==> IsSpace(rest[i]) {
      forall i | k < i < |text|
        ensures IsSpace(text[i])
      {
        assert text[i] == rest[i - k - 1];
      }
    }
  }

  /**
   * After the first separator, the broadcast text is empty exactly when the
   * rest of the message is whitespace, and then the default text goes out.
   */
  lemma BroadcastBlankIsDefault(text: string, k: nat)
    requires k < |text| && text[k] in Separators && SepFree(text[..k], Separators)
    ensures BroadcastPayload(text) == "" <==> forall i :: k < i < |text| ==> IsSpace(text[i])
    ensures (forall i :: k < i < |text| ==> IsSpace(text[i])) ==> BroadcastBody(text) == Text(DefaultBroadcast)
  {
    BroadcastPayloadAfterSeparator(text, k);
    var rest := text[k + 1..];
    ReplaceKeepsSpace(rest);
    TrimEmptyIff(Replace(rest, Separators, ':'));
    SuffixAllSpace(text, k, rest);
  }

  /** What the manager's broadcast sends: the payload, or the default text when it is empty. */
  function BroadcastBody(text: string): Body
  {
    var payload := BroadcastPayload(text);
    Text(if payload == "" then DefaultBroadcast else payload)
  }

  /** The sender's shift status as the status command reports it. */
  function StatusOf(shifts: Shifts, phone: string): Option<ShiftStatus>
  {
    if phone in shifts then Some(shifts[phone].status) else None
  }

  /**
   * What a known sender's command does before its reply: the next context,
   * the reply's body, what was sent and written ahead of the reply, and the
   * send outcomes left for the reply.
   */
  datatype Action = Action(ctx: Context, reply: Body, prior: seq<Effect>, rest: seq<Outcome>)

  /**
   * The state change of each command. Only the shift commands touch the
   * shifts (and only the sender's record), only the report command touches
   * the reports (by appending), only the add-staff command touches the
   * whitelist (by growing it), and only the broadcast sends anything ahead
   * of the reply.
   */
  function Perform(cfg: Config, ctx: Context, phone: string, role: Role, intent: Intent, text: string,
                   now: nat, net: seq<Outcome>, ai: (Role, string) -> string): (a: Action)
    ensures a.ctx.unknownAlerts == ctx.unknownAlerts
    ensures a.ctx.shifts == if intent == ShiftStart then StartShift(ctx.shifts, phone, now)
                            else if intent == ShiftStop then StopShift(ctx.shifts, phone, now)
                            else ctx.shifts
    ensures a.ctx.reports == if intent == Classifier.Report then AppendReport(ctx.reports, phone, text, now)
                             else ctx.reports
    ensures a.ctx.whitelist == if intent == Classifier.AddStaff then Store.AddStaff(ctx.whitelist, text).0
                               else ctx.whitelist
    ensures intent != Classifier.Broadcast ==> a.ctx.health == ctx.health && a.rest == net
    ensures !a.reply.AccessDenied? && !a.reply.UnknownSenderAlert?
    ensures forall i :: 0 <= i < |a.prior| && a.prior[i].Dispatch? ==>
              intent == Classifier.Broadcast
              && (a.prior[i].body == BroadcastBody(text)
                  || (a.prior[i].to == cfg.adminPhone && a.prior[i].body.BlockedAlert?))
  {
    match intent
    case ShiftStart =>
      Action(ctx.(shifts := StartShift(ctx.shifts, phone, now)), ShiftStarted,
             [SheetWrite(ShiftSheet, Row(phone, ShiftStartedWord, now))], net)
    case ShiftStop =>
      Action(ctx.(shifts := StopShift(ctx.shifts, phone, now)), ShiftStopped,
             [SheetWrite(ShiftSheet, Row(phone, ShiftStoppedWord, now))], net)
    case Report =>
      Action(ctx.(reports := AppendReport(ctx.reports, phone, text, now)), ReportSaved,
             [SheetWrite(ReportSheet, Row(phone, text, now))], net)
    case Meal =>
      Action(ctx, MealSaved, [SheetWrite(MealSheet, Row(phone, text, now))], net)
    case Status =>
      Action(ctx, StatusReply(StatusOf(ctx.shifts, phone)), [], net)
    case Broadcast =>
      var b := Delivery.Broadcast(cfg.adminPhone, ctx.health, ctx.whitelist, BroadcastBody(text), now, net);
      Action(ctx.(health := b.health), BroadcastSent, b.effects, b.rest)
    case Stats =>
      Action(ctx, StatsReply(CountOn(ctx.shifts), |ctx.reports|), [], net)
    case AddStaff =>
      var added := Store.AddStaff(ctx.whitelist, text);
      Action(ctx.(whitelist := added.0), if added.1.Some? then StaffAdded(added.1.value) else AddUsage, [], net)
    case Fallback =>
      Action(ctx, Text(ai(role, text)), [], net)
  }

  /** A known sender's command, classified on the trimmed, lowercased text, then the reply. */
  function Command(cfg: Config, ctx: Context, phone: string, role: Role, text: string,
                   now: nat, net: seq<Outcome>, ai: (Role, string) -> string): (r: Step)
  {
    var a := Perform(cfg, ctx, phone, role, Classify(Normalize(text), role), text, now, net, ai);
    Reply(cfg, a.ctx, phone, a.reply, a.prior, now, a.rest)
  }

  /**
   * `handleIncoming`: a payload without a message or without a phone is
   * ignored; an unknown sender gets the admin alert (once) and the denial;
   * a known sender's command is carried out.
   */
  function HandleIncoming(cfg: Config, ctx: Context, payload: Payload, now: nat, net: seq<Outcome>,
                          ai: (Role, string) -> string): (r: Step)
  {
    var sender := SenderInfo(payload);
    if !sender.hasMessage || sender.phone == "" then Step(ctx, [], net)
    else if !Authorised(cfg, ctx, sender.phone) then
      var n := NotifyAdminOfUnknownStaff(cfg, ctx, sender.phone, sender.text, now, net);
      Reply(cfg, n.ctx, sender.phone, AccessDenied, n.effects, now, n.rest)
    else
      Command(cfg, ctx, sender.phone, RoleOf(cfg, sender.phone), sender.text, now, net, ai)
  }

  /** One incoming message, with the clock reading and the outcomes of the sends it causes. */
  datatype Event = Event(payload: Payload, now: nat, outcomes: seq<Outcome>)

  datatype RunResult = RunResult(ctx: Context, effects: seq<Effect>)

  /** The handler over the process lifetime: the messages handled one after another. */
  function Run(cfg: Config, ctx: Context, events: seq<Event>, ai: (Role, string) -> string): RunResult
    decreases |events|
  {
    if |events| == 0 then RunResult(ctx, [])
    else
      var s := HandleIncoming(cfg, ctx, events[0].payload, events[0].now, events[0].outcomes, ai);
      var r := Run(cfg, s.ctx, events[1..], ai);
      RunResult(r.ctx, s.effects + r.effects)
  }
}
