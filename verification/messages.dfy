/**
 * What the handler sends and records: the reply bodies, the outbound send
 * with the platform's outcome, and the spreadsheet rows. `Render` spells
 * each body out as the text the handler passes to the platform.
 */
module Messages {
  import opened Strings
  import opened Store

  /** The platform's answer to one send: delivered, or an error with its numeric code. */
  datatype Outcome = Delivered | Failed(code: int)

  /** The bodies the handler sends. */
  datatype Body =
    | AccessDenied
    | UnknownSenderAlert(phone: string, preview: string)
    | BlockedAlert(phone: string)
    | ShiftStarted
    | ShiftStopped
    | ReportSaved
    | MealSaved
    | StatusReply(status: Wrappers.Option<ShiftStatus>)
    | BroadcastSent
    | StatsReply(onShift: nat, reports: nat)
    | StaffAdded(phone: string)
    | AddUsage
    | Text(text: string)

  /** A spreadsheet row: the sender, a status word or the message text, and the time. */
  datatype Row = Row(phone: string, detail: string, timestamp: nat)

  /** One observable effect of handling a message. */
  datatype Effect =
    | Dispatch(to: string, body: Body, outcome: Outcome)
    | SheetWrite(sheet: string, row: Row)

  const ShiftSheet: string := "Смены"
  const ReportSheet: string := "Отчёты"
  const MealSheet: string := "Питание"
  const ShiftStartedWord: string := "начал смену"
  const ShiftStoppedWord: string := "закончил смену"

  /** The broadcast text used when the manager's payload is empty. */
  const DefaultBroadcast: string := "Сообщение от руководителя."

  /** The longest message preview the unknown-sender alert quotes. */
  const PreviewLimit: nat := 120

  /** How much of a longer message the preview keeps before the ellipsis. */
  const PreviewKeep: nat := 117

  /**
   * The quoted preview of an unknown sender's message: a text within the
   * limit is quoted whole, a longer one is cut to its first 117 characters
   * followed by three dots.
   */
  function Preview(text: string): (r: string)
    ensures |r| <= PreviewLimit
    ensures |text| <= PreviewLimit ==> r == text
    ensures |text| > PreviewLimit ==> |r| == PreviewLimit && StartsWith(text, r[..PreviewKeep]) && r[PreviewKeep..] == "..."
  {
    if |text| > PreviewLimit then text[..PreviewKeep] + "..." else text
  }

  /** How a phone is shown in alerts: with a leading `+`, or a placeholder when empty. */
  function DisplayPhone(phone: string): (r: string)
    ensures phone != "" && AllDigits(phone) ==> r == "+" + phone
  {
    if phone == "" then "неизвестный номер"
    else if phone[0] == '+' then phone
    else "+" + phone
  }

  /** The text of a body as the handler sends it. */
  function Render(b: Body): string
  {
    match b
    case AccessDenied => "❗️Доступ ограничен. Сообщите свой номер руководителю для добавления в список сотрудников."
    case UnknownSenderAlert(phone, preview) =>
      "⚠️ Новый номер " + DisplayPhone(phone) + " написал боту, но не найден в STAFF_PHONES. Проверьте, добавлен ли он в разрешённый список Meta и обновите переменную окружения.\nСообщение: \""
      + (if preview == "" then "(пусто)" else preview) + "\""
    case BlockedAlert(phone) => "⚠️ Не удалось отправить сообщение на " + DisplayPhone(phone) + ". Добавьте этот номер в разрешённый список WhatsApp Cloud API (Meta Developers → App → WhatsApp → API Setup → Add phone number) и попросите сотрудника написать боту, чтобы открыть 24-часовой диалог."
    case ShiftStarted => "✅ Смена начата и записана в таблицу. Хорошей работы!"
    case ShiftStopped => "🕘 Смена завершена и записана в таблицу. Не забудь отчёт и питание."
    case ReportSaved => "📝 Отчёт сохранён и записан в таблицу. Спасибо!"
    case MealSaved => "🍽 Информация о питании сохранена. Спасибо!"
    case StatusReply(status) =>
      "📊 Статус: " + (match status
                      case Some(On) => "on"
                      case Some(Off) => "off"
                      case None => "не на смене")
    case BroadcastSent => "📣 Рассылка отправлена всем сотрудникам."
    case StatsReply(onShift, reports) =>
      "📈 На смене сейчас: " + NatToString(onShift) + ". Всего отчётов за сегодня: " + NatToString(reports) + "."
    case StaffAdded(phone) => "✅ Добавлен сотрудник: +" + phone
    case AddUsage => "⚠️ Укажи номер вида: 'добавить: +491234567890'"
    case Text(text) => text
  }

  /** The stats reply spells its counts in decimal. */
  lemma StatsText()
    ensures Render(StatsReply(3, 7)) == "📈 На смене сейчас: " + "3" + ". Всего отчётов за сегодня: " + "7" + "."
  {
    assert NatToString(3) == "3" by { assert DigitChar(3) == '3'; }
    assert NatToString(7) == "7" by { assert DigitChar(7) == '7'; }
  }
}
