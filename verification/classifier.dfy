/**
 * The command grammar of the WhatsApp handler: who the sender is, and which
 * command a normalised message text asks for. Every pattern of the handler
 * is either "contains this word" or "starts with this word (and a `:` or `-`
 * separator)", so the patterns are plain string predicates; the `[её]`
 * alternations are spelled out as two words.
 */
module Classifier {
  import opened Strings

  datatype Role = Staff | Manager

  /** What a message asks for; `Fallback` hands it to the AI responder. */
  datatype Intent =
    | ShiftStart | ShiftStop | Report | Meal | Status
    | Broadcast | Stats | AddStaff
    | Fallback

  /** The character class `[:\-]` of the command patterns. */
  const Separators: set<char> := {':', '-'}

  /** `^w[:\-]`: the text starts with the command word and a separator. */
  predicate StartsWithCommand(t: string, w: string)
  {
    StartsWith(t, w) && |t| > |w| && t[|w|] in Separators
  }

  /** Whether intent `i`'s pattern matches the normalised text `t`. */
  predicate Matches(i: Intent, t: string)
  {
    match i
    case ShiftStart =>
      Contains(t, "смена старт") || Contains(t, "пришел") || Contains(t, "пришёл")
      || Contains(t, "начал")
    case ShiftStop =>
      Contains(t, "смена стоп") || Contains(t, "ушел") || Contains(t, "ушёл")
      || Contains(t, "закончил") || Contains(t, "конец смены")
    case Report => StartsWithCommand(t, "отчет") || StartsWithCommand(t, "отчёт")
    case Meal => StartsWithCommand(t, "питание")
    case Status => Contains(t, "статус")
    case Broadcast => StartsWithCommand(t, "рассылка")
    case Stats => StartsWith(t, "статистика")
    case AddStaff => StartsWithCommand(t, "добавить")
    case Fallback => true
  }

  /** The patterns every known sender may use, in the order they are tried. */
  const StaffPatterns: seq<Intent> := [ShiftStart, ShiftStop, Report, Meal, Status]

  /** The manager's extra patterns, tried only after all of `StaffPatterns`. */
  const ManagerPatterns: seq<Intent> := [Broadcast, Stats, AddStaff]

  /** The ordered pattern list a role is classified against. */
  function Patterns(role: Role): seq<Intent>
  {
    if role == Manager then StaffPatterns + ManagerPatterns else StaffPatterns
  }

  /** The position of an intent's pattern in the manager's (longest) list. */
  function Rank(i: Intent): nat
  {
    match i
    case ShiftStart => 0
    case ShiftStop => 1
    case Report => 2
    case Meal => 3
    case Status => 4
    case Broadcast => 5
    case Stats => 6
    case AddStaff => 7
    case Fallback => 8
  }

  /** Reference semantics: the first pattern of `ps` that matches, else the fallback. */
  function FirstMatch(ps: seq<Intent>, t: string): Intent
  {
    if |ps| == 0 then Fallback
    else if Matches(ps[0], t) then ps[0]
    else FirstMatch(ps[1..], t)
  }

  /** The text the patterns are matched against: `text.trim().toLowerCase()`. */
  function Normalize(text: string): string
  {
    Lower(Trim(text))
  }

  /**
   * The handler's chain of tests, as written: the five staff-level patterns
   * first, then, for the manager only, the three manager patterns, then the
   * fallback. The result is the earliest matching pattern of the role's list.
   */
  function Classify(t: string, role: Role): (i: Intent)
    ensures i != Fallback ==> i in Patterns(role) && Matches(i, t)
    ensures forall j :: j in Patterns(role) && Rank(j) < Rank(i) ==> !Matches(j, t)
    ensures i == Fallback <==> forall j :: j in Patterns(role) ==> !Matches(j, t)
    ensures role == Staff ==> i !in ManagerPatterns
  {
    if Matches(ShiftStart, t) then ShiftStart
    else if Matches(ShiftStop, t) then ShiftStop
    else if Matches(Report, t) then Report
    else if Matches(Meal, t) then Meal
    else if Matches(Status, t) then Status
    else if role == Manager then
      if Matches(Broadcast, t) then Broadcast
      else if Matches(Stats, t) then Stats
      else if Matches(AddStaff, t) then AddStaff
      else Fallback
    else Fallback
  }

  /** The chain agrees with first-match-wins over the role's ordered list. */
  lemma ClassifyIsFirstMatch(t: string, role: Role)
    ensures Classify(t, role) == FirstMatch(Patterns(role), t)
  {
    var ps := Patterns(role);
    var p1 := ps[1..];
    var p2 := p1[1..];
    var p3 := p2[1..];
    var p4 := p3[1..];
    var p5 := p4[1..];
    assert FirstMatch(ps, t) == if Matches(ShiftStart, t) then ShiftStart else FirstMatch(p1, t);
    assert FirstMatch(p1, t) == if Matches(ShiftStop, t) then ShiftStop else FirstMatch(p2, t);
    assert FirstMatch(p2, t) == if Matches(Report, t) then Report else FirstMatch(p3, t);
    assert FirstMatch(p3, t) == if Matches(Meal, t) then Meal else FirstMatch(p4, t);
    assert FirstMatch(p4, t) == if Matches(Status, t) then Status else FirstMatch(p5, t);
    if role == Manager {
      assert p5 == ManagerPatterns;
      assert FirstMatch(p5, t) == if Matches(Broadcast, t) then Broadcast else FirstMatch(p5[1..], t);
      assert FirstMatch(p5[1..], t) == if Matches(Stats, t) then Stats else FirstMatch(p5[2..], t);
      assert FirstMatch(p5[2..], t) == if Matches(AddStaff, t) then AddStaff else FirstMatch(p5[3..], t);
      assert p5[3..] == [];
    } else {
      assert p5 == [];
    }
  }

  /** The manager's extra patterns never override a staff-level match. */
  lemma StaffMatchWinsForManager(t: string)
    requires Classify(t, Staff) != Fallback
    ensures Classify(t, Manager) == Classify(t, Staff)
  {
  }

  /** A word holding a character the text lacks does not occur in the text. */
  lemma AbsentCharNotContained(t: string, w: string, c: char)
    requires c in w && c !in t
    ensures !Contains(t, w)
  {
    var k :| 0 <= k < |w| && w[k] == c;
    forall i | 0 <= i && i + |w| <= |t|
      ensures !OccursAt(t, w, i)
    {
      assert t[i..i + |w|][k] == t[i + k];
    }
  }

  /** A text without `м`, `п` and `н` holds none of the shift-start words. */
  lemma NoShiftStartWord(t: string)
    requires 'м' !in t && 'п' !in t && 'н' !in t
    ensures !Matches(ShiftStart, t)
  {
    AbsentCharNotContained(t, "смена старт", 'м');
    AbsentCharNotContained(t, "пришел", 'п');
    AbsentCharNotContained(t, "пришёл", 'п');
    AbsentCharNotContained(t, "начал", 'н');
  }

  /** A text without `м`, `ш` and `з` holds none of the shift-stop words. */
  lemma NoShiftStopWord(t: string)
    requires 'м' !in t && 'ш' !in t && 'з' !in t
    ensures !Matches(ShiftStop, t)
  {
    AbsentCharNotContained(t, "смена стоп", 'м');
    AbsentCharNotContained(t, "ушел", 'ш');
    AbsentCharNotContained(t, "ушёл", 'ш');
    AbsentCharNotContained(t, "закончил", 'з');
    AbsentCharNotContained(t, "конец смены", 'м');
  }

  /** A text whose first character differs from a word's does not start with it. */
  lemma DifferentFirstChar(t: string, w: string)
    requires |t| > 0 && |w| > 0 && t[0] != w[0]
    ensures !StartsWith(t, w)
  {
    if |w| <= |t| {
      assert t[..|w|][0] == t[0];
    }
  }

  /** A text lacking these letters, not starting with `о`, matches no staff-level pattern. */
  lemma NoStaffWord(t: string)
    requires 'м' !in t && 'п' !in t && 'н' !in t && 'ш' !in t && 'з' !in t && 'у' !in t
    requires |t| > 0 && t[0] != 'о'
    ensures forall i :: i in StaffPatterns ==> !Matches(i, t)
  {
    NoShiftStartWord(t);
    NoShiftStopWord(t);
    DifferentFirstChar(t, "отчет");
    DifferentFirstChar(t, "отчёт");
    DifferentFirstChar(t, "питание");
    AbsentCharNotContained(t, "статус", 'у');
  }

  /** A text without surrounding whitespace or capital letters is its own normal form. */
  lemma NormalizeFixed(t: string)
    requires |t| > 0 && !IsSpace(t[0]) && !IsSpace(t[|t| - 1])
    requires forall i :: 0 <= i < |t| ==> !('A' <= t[i] <= 'Z') && !('\U{0400}' <= t[i] <= '\U{042F}')
    ensures Normalize(t) == t
  {
    TrimOfTrimmed(t);
    LowerOfLowercase(t);
  }

  /** The letters the staff-level words need are absent from `статистика`. */
  lemma StatsWordLetters()
    ensures var t := "статистика"; 'м' !in t && 'п' !in t && 'н' !in t && 'ш' !in t && 'з' !in t && 'у' !in t
  {
  }

  /** `статистика` is the manager's stats command. */
  lemma StatsWord()
    ensures Classify("статистика", Manager) == Stats
  {
    var t := "статистика";
    StatsWordLetters();
    NoStaffWord(t);
    DifferentFirstChar(t, "рассылка");
  }

  /**
   * The letters the staff-level words need are absent from the add-staff
   * example. The six letters are split over two lemmas only to keep each
   * proof cheap for the solver.
   */
  lemma AddStaffExampleLettersA()
    ensures var t := "добавить: +491234567890"; 'м' !in t && 'п' !in t && 'н' !in t
  {
  }

  /** The other three letters, for the same example. */
  lemma AddStaffExampleLettersB()
    ensures var t := "добавить: +491234567890"; 'ш' !in t && 'з' !in t && 'у' !in t
  {
  }

  /** `добавить: +491234567890` is the manager's add-staff command. */
  lemma AddStaffWord()
    ensures Classify("добавить: +491234567890", Manager) == AddStaff
  {
    var t := "добавить: +491234567890";
    AddStaffExampleLettersA();
    AddStaffExampleLettersB();
    NoStaffWord(t);
    DifferentFirstChar(t, "рассылка");
    DifferentFirstChar(t, "статистика");
    assert StartsWithCommand(t, "добавить");
  }

  /** The letters the shift words need are absent from `рассылка: статус`. */
  lemma BroadcastOfStatusLetters()
    ensures var t := "рассылка: статус"; 'м' !in t && 'п' !in t && 'н' !in t && 'ш' !in t && 'з' !in t
  {
  }

  /** Because staff-level patterns are tried first, a manager's `рассылка: статус` asks for the status. */
  lemma BroadcastOfStatusIsStatus()
    ensures Classify("рассылка: статус", Manager) == Status
  {
    var t := "рассылка: статус";
    BroadcastOfStatusLetters();
    NoShiftStartWord(t);
    NoShiftStopWord(t);
    DifferentFirstChar(t, "отчет");
    DifferentFirstChar(t, "отчёт");
    DifferentFirstChar(t, "питание");
    assert OccursAt(t, "статус", 10);
  }

  /** The letters the shift words need are absent from `отчёт: статус ок`. */
  lemma ReportExampleLetters()
    ensures var t := "отчёт: статус ок"; 'м' !in t && 'п' !in t && 'н' !in t && 'ш' !in t && 'з' !in t
  {
  }

  /** A report whose text mentions the status is still a report: report is tried first. */
  lemma ReportMentioningStatusIsReport(role: Role)
    ensures Classify("отчёт: статус ок", role) == Report
  {
    var t := "отчёт: статус ок";
    ReportExampleLetters();
    NoShiftStartWord(t);
    NoShiftStopWord(t);
    assert StartsWithCommand(t, "отчёт");
  }
}
