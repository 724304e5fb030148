/** The `/period <start> <end>` command (bot.py:139-190) up to sending its
    reply: the argument check, the date parsing, the look-up, and the
    report's label, file name and caption. The database look-up is a
    parameter. */
module Commands {
  import opened Text
  import opened Calendar
  import opened Records
  import opened Wrappers
  import Conversations
  import Sheets
  import Report
  import Exporter
  import Timestamps

  datatype Date = Date(year: int, month: int, day: int)

  predicate ValidDay(d: Date)
  {
    ValidDate(d.year, d.month, d.day)
  }

  /** `date.strftime("%d-%m-%Y")`. */
  function DmyText(d: Date): string
    requires ValidDay(d)
  {
    Pad(d.day, 2) + "-" + Pad(d.month, 2) + "-" + Pad(d.year, 4)
  }

  /** `date.strftime("%Y-%m-%d")`, the form the database look-up takes. */
  function SqlText(d: Date): string
    requires ValidDay(d)
  {
    Timestamps.DateText(d.year, d.month, d.day)
  }

  /** `datetime.strptime(s, "%d-%m-%Y")` on the fixed-width form: two
      digits of day, two of month and four of year, joined by '-', naming a
      date of the calendar; anything else is a `ValueError`. */
  function ParseDmy(s: string): (r: Option<Date>)
    ensures r.Some? ==> ValidDay(r.value)
  {
    if |s| == 10 && s[2] == '-' && s[5] == '-' && AllDigits(s[..2]) && AllDigits(s[3..5]) && AllDigits(s[6..]) then
      var d := Date(DigitsValue(s[6..]), DigitsValue(s[3..5]), DigitsValue(s[..2]));
      if ValidDay(d) then Some(d) else None
    else None
  }

  /** Every date reads back from its own "DD-MM-YYYY" text. */
  lemma ParseDmyText(d: Date)
    requires ValidDay(d)
    ensures ParseDmy(DmyText(d)) == Some(d)
  {
    PadDigits(d.day, 2);
    PadDigits(d.month, 2);
    PadDigits(d.year, 4);
    var dd, mm, yy := Pad(d.day, 2), Pad(d.month, 2), Pad(d.year, 4);
    var s := DmyText(d);
    assert s == dd + "-" + mm + "-" + yy;
    assert s[..2] == dd;
    assert s[3..5] == mm;
    assert s[6..] == yy;
  }

  /** A text `ParseDmy` accepts is the "DD-MM-YYYY" text of what it read,
      so re-formatting the parsed dates gives back the arguments. */
  lemma DmyTextParsed(s: string)
    requires ParseDmy(s).Some?
    ensures DmyText(ParseDmy(s).value) == s
  {
    DigitsPad(s[..2]);
    DigitsPad(s[3..5]);
    DigitsPad(s[6..]);
    assert s == s[..2] + "-" + s[3..5] + "-" + s[6..];
  }

  const UsageText: string := "Пожалуйста, укажите период в формате: /period DD-MM-YYYY DD-MM-YYYY"
  const BadDateText: string := "Неверный формат даты. Используйте DD-MM-YYYY."
  const NotFoundText: string := "Сообщения за указанный период не найдены."

  /** What the command answers: a text message, the report as a document,
      or nothing because the export raised. */
  datatype Reply =
    | Say(text: string)
    | Document(fileName: string, caption: string, sheet: Sheets.Sheet)
    | Raised

  /** The label of a period, which is also the sheet's title period. */
  function PeriodLabel(start: Date, end: Date): string
    requires ValidDay(start) && ValidDay(end)
  {
    DmyText(start) + "_to_" + DmyText(end)
  }

  /** The name the report is sent under. */
  function ReportFileName(name: string): string
  {
    "conversations-" + name + ".xlsx"
  }

  /** The answer to `/period` with arguments `args`, when the look-up
      returns `fetch(from, to)` for dates given as "YYYY-MM-DD" and the
      bot's own phone is `mainPhone`. */
  function PeriodAnswer(args: seq<string>, fetch: (string, string) -> seq<Message>, mainPhone: string): Reply
  {
    if |args| != 2 then Say(UsageText)
    else
      var start, end := ParseDmy(args[0]), ParseDmy(args[1]);
      if start.None? || end.None? then Say(BadDateText)
      else
        var convs := Conversations.Build(fetch(SqlText(start.value), SqlText(end.value)), mainPhone);
        if convs == [] then Say(NotFoundText)
        else if !Report.ReadyUpTo(convs, |convs|, Timestamps.CleanDatetime) then Raised
        else
          var name := PeriodLabel(start.value, end.value);
          Document(ReportFileName(name),
                   "Отзывы за период " + DmyText(start.value) + " — " + DmyText(end.value),
                   Report.Export(convs, name, Timestamps.CleanDatetime))
  }

  /** Any number of arguments but two gets the usage text, and only that. */
  lemma PeriodUsage(args: seq<string>, fetch: (string, string) -> seq<Message>, mainPhone: string)
    ensures |args| != 2 <==> PeriodAnswer(args, fetch, mainPhone) == Say(UsageText)
  {
  }

  /** Two arguments of which one is not a "DD-MM-YYYY" date get the
      date-format text, and only they do. */
  lemma PeriodBadDate(args: seq<string>, fetch: (string, string) -> seq<Message>, mainPhone: string)
    ensures |args| == 2 && (ParseDmy(args[0]).None? || ParseDmy(args[1]).None?)
            <==> PeriodAnswer(args, fetch, mainPhone) == Say(BadDateText)
  {
  }

  /** The label of two parsed arguments is the arguments joined by "_to_". */
  lemma PeriodLabelArgs(first: string, last: string)
    requires ParseDmy(first).Some? && ParseDmy(last).Some?
    ensures PeriodLabel(ParseDmy(first).value, ParseDmy(last).value) == first + "_to_" + last
  {
    DmyTextParsed(first);
    DmyTextParsed(last);
  }

  /** With two valid dates, the answer is the not-found text exactly when
      the period holds no conversation, nothing when a time stamp fails to
      normalise, and the report otherwise. */
  lemma PeriodOutcome(args: seq<string>, fetch: (string, string) -> seq<Message>, mainPhone: string)
    requires |args| == 2 && ParseDmy(args[0]).Some? && ParseDmy(args[1]).Some?
    ensures var r := PeriodAnswer(args, fetch, mainPhone);
      var convs := Conversations.Build(fetch(SqlText(ParseDmy(args[0]).value), SqlText(ParseDmy(args[1]).value)), mainPhone);
      && (r == Say(NotFoundText) <==> convs == [])
      && (r.Raised? <==> convs != [] && !Report.ReadyUpTo(convs, |convs|, Timestamps.CleanDatetime))
      && (r.Document? <==> convs != [] && Report.ReadyUpTo(convs, |convs|, Timestamps.CleanDatetime))
  {
  }

  /** The report's file name and caption repeat the two arguments as
      given, and its sheet is the export of the period's conversations
      with "<start>_to_<end>" as title period. */
  lemma PeriodDocument(args: seq<string>, fetch: (string, string) -> seq<Message>, mainPhone: string)
    requires PeriodAnswer(args, fetch, mainPhone).Document?
    ensures |args| == 2 && ParseDmy(args[0]).Some? && ParseDmy(args[1]).Some?
    ensures var r := PeriodAnswer(args, fetch, mainPhone);
      var convs := Conversations.Build(fetch(SqlText(ParseDmy(args[0]).value), SqlText(ParseDmy(args[1]).value)), mainPhone);
      && r.fileName == ReportFileName(args[0] + "_to_" + args[1])
      && r.caption == "Отзывы за период " + args[0] + " — " + args[1]
      && Report.ReadyUpTo(convs, |convs|, Timestamps.CleanDatetime)
      && r.sheet == Report.Export(convs, args[0] + "_to_" + args[1], Timestamps.CleanDatetime)
  {
    PeriodLabelArgs(args[0], args[1]);
    DmyTextParsed(args[0]);
    DmyTextParsed(args[1]);
  }

  /** The `/period` handler, step by step. */
  method Period(args: seq<string>, fetch: (string, string) -> seq<Message>, mainPhone: string) returns (reply: Reply)
    ensures reply == PeriodAnswer(args, fetch, mainPhone)
  {
    if |args| != 2 {
      return Say(UsageText);
    }
    var startArg, endArg := args[0], args[1];
    var startDate := ParseDmy(startArg);
    var endDate := ParseDmy(endArg);
    if startDate.None? || endDate.None? {
      return Say(BadDateText);
    }
    var startSql := SqlText(startDate.value);
    var endSql := SqlText(endDate.value);
    var lastMessages := fetch(startSql, endSql);
    var convs := Conversations.BuildConversations(lastMessages, mainPhone);
    if convs == [] {
      return Say(NotFoundText);
    }
    var fileNameDate := PeriodLabel(startDate.value, endDate.value);
    var ws, ok := Exporter.ExportConversations(convs, fileNameDate);
    if !ok {
      return Raised;
    }
    var caption := "Отзывы за период " + DmyText(startDate.value) + " — " + DmyText(endDate.value);
    reply := Document(ReportFileName(fileNameDate), caption, ws.State());
  }
}
