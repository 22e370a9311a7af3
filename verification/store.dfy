/**
 * The handler's in-memory state: one shift record per phone, the
 * append-only list of reports, and the staff whitelist (built once from the
 * default staff phone and the configured list, then grown by the manager's
 * add-staff command).
 */
module Store {
  import opened Wrappers
  import opened Strings
  import opened Seqs
  import opened DigitRun

  datatype ShiftStatus = On | Off

  /**
   * A shift record. The handler stores a formatted wall-clock time; here a
   * timestamp is the millisecond clock reading it was formatted from.
   */
  datatype ShiftRecord = ShiftRecord(status: ShiftStatus, startAt: Option<nat>, endAt: Option<nat>)

  /** A report keeps the text exactly as the sender wrote it. */
  datatype Report = Report(phone: string, text: string, timestamp: nat)

  type Shifts = map<string, ShiftRecord>

  /** A shift start replaces the sender's whole record, so an earlier end time is dropped. */
  function StartShift(shifts: Shifts, phone: string, at: nat): (r: Shifts)
    ensures phone in r && r[phone] == ShiftRecord(On, Some(at), None)
    ensures r.Keys == shifts.Keys + {phone}
    ensures forall p :: p in shifts && p != phone ==> r[p] == shifts[p]
  {
    shifts[phone := ShiftRecord(On, Some(at), None)]
  }

  /** A shift stop marks the sender off and records the end, keeping any start time. */
  function StopShift(shifts: Shifts, phone: string, at: nat): (r: Shifts)
    ensures phone in r && r[phone].status == Off && r[phone].endAt == Some(at)
    ensures r[phone].startAt == if phone in shifts then shifts[phone].startAt else None
    ensures r.Keys == shifts.Keys + {phone}
    ensures forall p :: p in shifts && p != phone ==> r[p] == shifts[p]
  {
    var start := if phone in shifts then shifts[phone].startAt else None;
    shifts[phone := ShiftRecord(Off, start, Some(at))]
  }

  /** The phones whose record says they are on shift. */
  function OnShift(shifts: Shifts): set<string>
  {
    set p | p in shifts && shifts[p].status == On
  }

  /** The stats command's count: how many records have status `on`. */
  function CountOn(shifts: Shifts): nat
  {
    |OnShift(shifts)|
  }

  predicate IsOn(shifts: Shifts, phone: string)
  {
    phone in shifts && shifts[phone].status == On
  }

  /** A shift start adds the sender to the on-shift count unless they were already on. */
  lemma StartShiftCount(shifts: Shifts, phone: string, at: nat)
    ensures CountOn(StartShift(shifts, phone, at)) == CountOn(shifts) + if IsOn(shifts, phone) then 0 else 1
  {
    var r := StartShift(shifts, phone, at);
    if IsOn(shifts, phone) {
      assert OnShift(r) == OnShift(shifts);
    } else {
      assert OnShift(r) == OnShift(shifts) + {phone};
    }
  }

  /** A shift stop removes the sender from the on-shift count if they were on. */
  lemma StopShiftCount(shifts: Shifts, phone: string, at: nat)
    ensures CountOn(StopShift(shifts, phone, at)) == CountOn(shifts) - if IsOn(shifts, phone) then 1 else 0
  {
    var r := StopShift(shifts, phone, at);
    if IsOn(shifts, phone) {
      assert OnShift(r) == OnShift(shifts) - {phone};
    } else {
      assert OnShift(r) == OnShift(shifts);
    }
  }

  /** Start then stop leaves a record that is off and carries both times. */
  lemma StartThenStop(shifts: Shifts, phone: string, start: nat, end: nat)
    ensures StopShift(StartShift(shifts, phone, start), phone, end)[phone]
         == ShiftRecord(Off, Some(start), Some(end))
  {
  }

  /** Reports are only ever appended. */
  function AppendReport(reports: seq<Report>, phone: string, text: string, at: nat): (r: seq<Report>)
    ensures |r| == |reports| + 1 && r[..|reports|] == reports
    ensures r[|reports|].text == text && r[|reports|].phone == phone
  {
    reports + [Report(phone, text, at)]
  }

  /** The phone every whitelist starts with. */
  const DefaultStaff: seq<string> := ["79133318413"]

  /** Whitelist entries are non-empty digit strings, each listed once. */
  predicate WellFormedWhitelist(w: seq<string>)
  {
    NoDup(w) && forall p :: p in w ==> p != "" && AllDigits(p)
  }

  /** `.map(s => s.replace(/\D/g, "")).filter(Boolean)` over the configured entries. */
  function CleanPhones(parts: seq<string>): (r: seq<string>)
    ensures forall p :: p in r ==> p != "" && AllDigits(p)
    ensures forall k :: 0 <= k < |parts| && Digits(parts[k]) != "" ==> Digits(parts[k]) in r
    ensures forall p :: p in r ==> exists k :: 0 <= k < |parts| && Digits(parts[k]) == p
  {
    if |parts| == 0 then []
    else
      var d := Digits(parts[0]);
      var rest := CleanPhones(parts[1..]);
      assert forall k :: 1 <= k < |parts| ==> parts[k] == parts[1..][k - 1];
      (if d == "" then [] else [d]) + rest
  }

  /** The configured staff phones: the comma-separated list, reduced to digits, empties dropped. */
  function ConfiguredPhones(env: string): seq<string>
  {
    CleanPhones(Split(env, {','}))
  }

  /** The whitelist at start-up: the default phone, then the configured ones, duplicates removed. */
  function BuildWhitelist(env: string): (r: seq<string>)
    ensures WellFormedWhitelist(r)
    ensures |r| > 0 && r[0] == DefaultStaff[0]
    ensures forall p :: p in r <==> p in DefaultStaff || p in ConfiguredPhones(env)
  {
    var all := DefaultStaff + ConfiguredPhones(env);
    assert AllDigits(DefaultStaff[0]) by {
      var d := DefaultStaff[0];
      forall i | 0 <= i < |d| ensures IsDigit(d[i]) {}
    }
    Dedup(all)
  }

  /**
   * The add-staff command: the first run of seven or more digits of the
   * original text joins the whitelist when it is not there yet; otherwise
   * the whitelist is left as it is and the second component is `None`.
   */
  function AddStaff(whitelist: seq<string>, text: string): (r: (seq<string>, Option<string>))
    ensures r.1.Some? <==> LongDigitRun(text).Some? && LongDigitRun(text).value !in whitelist
    ensures r.1.Some? ==> r.1 == LongDigitRun(text) && r.0 == whitelist + [r.1.value]
    ensures r.1.None? ==> r.0 == whitelist
    ensures WellFormedWhitelist(whitelist) ==> WellFormedWhitelist(r.0)
  {
    match LongDigitRun(text)
    case Some(d) =>
      if d !in whitelist then (whitelist + [d], Some(d)) else (whitelist, None)
    case None => (whitelist, None)
  }

  /** Repeating an add-staff command adds nothing the second time. */
  lemma AddStaffTwice(whitelist: seq<string>, text: string)
    ensures AddStaff(AddStaff(whitelist, text).0, text) == (AddStaff(whitelist, text).0, None)
  {
  }

  /**
   * `добавить: +491234567890` adds `491234567890` to a whitelist that lacks
   * it; the same text again adds nothing.
   */
  lemma AddStaffExample(whitelist: seq<string>)
    requires "491234567890" !in whitelist
    ensures var (w1, added) := AddStaff(whitelist, "добавить: +491234567890");
            && w1 == whitelist + ["491234567890"] && added == Some("491234567890")
            && AddStaff(w1, "добавить: +491234567890") == (w1, None)
  {
    AddStaffNumber();
  }
}
