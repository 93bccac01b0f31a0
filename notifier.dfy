/** The Telegram notifier: the gate in front of the bot, the delivery of one
    message, and the deterministic formatters of the notifications. Every
    notification line is a bold label followed by its text; the clock's
    rendering of the current time and date is passed in. */
module Notifier {
  import opened Outcomes
  import opened Text
  import Config

  /** The `details` object a notification is formatted from. The empty string and 0
      stand for the falsy values (absent, `null`, `undefined`, `""`, `0`). */
  datatype Details = Details(wallet: string, txHash: string, balance: string,
                             fileSize: string, attempt: int, maxRetries: int)

  const NoDetails: Details := Details("", "", "", "", 0, 0)

  /** The statistics a daily report is built from; `features` lists the per-name
      success counts in insertion order. */
  datatype Report = Report(totalRuns: nat, successful: nat, failed: nat, features: seq<(string, nat)>)

  /** A message handed to `sendMessage`, before it is rendered to text. */
  datatype Notice =
    | SuccessNotice(feature: string, details: Details)
    | FailureNotice(feature: string, error: string, details: Details)
    | WalletErrorNotice(wallet: string, feature: string, error: string, details: Details)
    | RetryNotice(feature: string, attempt: int, maxRetries: int, error: string)
    | DailyReportNotice(report: Report)
    | TextNotice(text: string)

  // ---------------------------------------------------------------------------
  // Gate and delivery

  datatype Bot = Bot(token: string)

  /** The notifier's state: whether notifications are enabled, and the bot client. */
  datatype TelegramNotifier = TelegramNotifier(isEnabled: bool, bot: Option<Bot>)

  /** The constructor: a bot is created only when enabled and a token is configured. */
  function NewTelegramNotifier(enabled: bool, token: string): (n: TelegramNotifier)
    ensures n.isEnabled == enabled
    ensures n.bot.Some? <==> enabled && token != ""
    ensures n.bot.Some? ==> n.bot.value.token == token
  {
    TelegramNotifier(enabled, if enabled && token != "" then Some(Bot(token)) else None)
  }

  /** A call of the bot's `sendMessage(chatId, text, options)`. */
  datatype BotCall = BotCall(chatId: string, text: string, options: map<string, string>)

  /** What one `sendMessage` did: the bot call it made, if any, and what it logged. */
  datatype Sent = Sent(call: Option<BotCall>, log: string)

  const ParseMode: string := "parse_mode"
  const ThreadKey: string := "message_thread_id"

  /** `{parse_mode: 'HTML', ...options}`, with the thread id set when one is configured
      (`threadId` is "" when none is). */
  function MessageOptions(options: map<string, string>, threadId: string): (o: map<string, string>)
    ensures ParseMode in o && o[ParseMode] == (if ParseMode in options then options[ParseMode] else "HTML")
    ensures ThreadKey in o <==> threadId != "" || ThreadKey in options
    ensures threadId != "" ==> o[ThreadKey] == threadId
    ensures forall k :: k in options && (k != ThreadKey || threadId == "") ==> k in o && o[k] == options[k]
    ensures forall k :: k in o ==> k in options || k == ParseMode || k == ThreadKey
  {
    var merged := map[ParseMode := "HTML"] + options;
    if threadId != "" then merged[ThreadKey := threadId] else merged
  }

  /** `sendMessage(message, options)`: no bot call when disabled or without a bot;
      otherwise one call, whose failure is logged and never propagates (the result
      has no error case). `delivery` is the bot's answer. */
  function SendMessage(n: TelegramNotifier, chatId: string, threadId: string, message: string,
                       options: map<string, string>, delivery: Outcome<()>): (s: Sent)
    ensures s.call.Some? <==> n.isEnabled && n.bot.Some?
    ensures s.call.Some? ==> s.call.value == BotCall(chatId, message, MessageOptions(options, threadId))
    ensures s.call.None? ==> s.log == "Telegram notifications disabled or bot not configured"
    ensures s.call.Some? && delivery.Err? ==> s.log == "Failed to send Telegram message: " + delivery.error
    ensures s.call.Some? && delivery.Ok? ==> s.log == "Telegram message sent successfully"
  {
    if !n.isEnabled || n.bot.None? then
      Sent(None, "Telegram notifications disabled or bot not configured")
    else
      var call := BotCall(chatId, message, MessageOptions(options, threadId));
      match delivery
      case Ok(_) => Sent(Some(call), "Telegram message sent successfully")
      case Err(e) => Sent(Some(call), "Failed to send Telegram message: " + e)
  }

  // ---------------------------------------------------------------------------
  // Message structure

  /** A label shown in bold: free of markup brackets and of line breaks. */
  type Tag = t: string | '<' !in t && '\n' !in t witness ""

  const SuccessTitle: Tag := "\U{2705} SUCCESS"
  const FailureTitle: Tag := "\U{274C} FAILURE"
  const WalletErrorTitle: Tag := "\U{26A0}\U{FE0F} WALLET ERROR"
  const RetryTitle: Tag := "\U{1F504} RETRY ATTEMPT"
  const DailyReportTitle: Tag := "\U{1F4CA} DAILY REPORT"

  const FeatureTag: Tag := "Feature:"
  const TimeTag: Tag := "Time:"
  const WalletTag: Tag := "Wallet:"
  const TransactionTag: Tag := "Transaction:"
  const BalanceTag: Tag := "Balance:"
  const FileSizeTag: Tag := "File Size:"
  const ErrorTag: Tag := "Error:"
  const AttemptTag: Tag := "Attempt:"
  const DateTag: Tag := "Date:"
  const TotalRunsTag: Tag := "Total Runs:"
  const SuccessfulTag: Tag := "Successful:"
  const FailedTag: Tag := "Failed:"
  const SuccessRateTag: Tag := "Success Rate:"
  const BreakdownTag: Tag := "Feature Breakdown:"

  /** One line of a notification: `<b>tag</b>` followed by the rest of the line. */
  datatype Entry = Entry(tag: Tag, rest: string)

  function Bold(tag: string): string
  {
    "<b>" + tag + "</b>"
  }

  function Render(e: Entry): string
  {
    Bold(e.tag) + e.rest
  }

  function Rendered(es: seq<Entry>): (lines: seq<string>)
    ensures |lines| == |es|
    ensures forall i :: 0 <= i < |es| ==> lines[i] == Render(es[i])
  {
    seq(|es|, i requires 0 <= i < |es| => Render(es[i]))
  }

  function Tags(es: seq<Entry>): (tags: seq<string>)
    ensures |tags| == |es|
    ensures forall i :: 0 <= i < |es| ==> tags[i] == es[i].tag
  {
    seq(|es|, i requires 0 <= i < |es| => es[i].tag)
  }

  /** A message written as `message += <line> + "\n"` for each entry. */
  function Compose(es: seq<Entry>): string
  {
    JoinLines(Rendered(es))
  }

  function Opt(present: bool, e: Entry): seq<Entry>
  {
    if present then [e] else []
  }

  /** Every entry's text after the label stays on its line. */
  predicate WellFormed(es: seq<Entry>)
  {
    forall i :: 0 <= i < |es| ==> OneLine(es[i].rest)
  }

  lemma WellFormedAppend(a: seq<Entry>, b: seq<Entry>)
    requires WellFormed(a) && WellFormed(b)
    ensures WellFormed(a + b)
  {
    forall i | 0 <= i < |a + b| ensures OneLine((a + b)[i].rest) {
      if i >= |a| {
        assert (a + b)[i] == b[i - |a|];
      }
    }
  }

  lemma TagsAppend(a: seq<Entry>, b: seq<Entry>)
    ensures Tags(a + b) == Tags(a) + Tags(b)
  {
  }

  lemma OptTags(present: bool, e: Entry)
    ensures Tags(Opt(present, e)) == if present then [e.tag] else []
  {
  }

  lemma RenderedAppend(a: seq<Entry>, b: seq<Entry>)
    ensures Rendered(a + b) == Rendered(a) + Rendered(b)
  {
  }

  /** 1 when a conditional line is present, 0 otherwise. */
  function Present(b: bool): nat
  {
    if b then 1 else 0
  }

  /** Whether a line of the message begins with `prefix`. */
  predicate HasLine(message: string, prefix: string)
  {
    exists i :: 0 <= i < |SplitLines(message)| && StartsWith(SplitLines(message)[i], prefix)
  }

  lemma RenderedOneLine(es: seq<Entry>)
    requires WellFormed(es)
    ensures AllOneLine(Rendered(es))
  {
    forall k | 0 <= k < |es| ensures OneLine(Rendered(es)[k]) {
      var e := es[k];
    }
  }

  /** A composed message splits back into its rendered entries. */
  lemma ComposedLines(es: seq<Entry>)
    requires WellFormed(es)
    ensures SplitLines(Compose(es)) == Rendered(es)
  {
    RenderedOneLine(es);
    SplitJoinLines(Rendered(es));
  }

  /** The bold label that begins a line identifies its tag. */
  lemma TagMatch(w: Tag, v: Tag, rest: string)
    ensures StartsWith(Bold(w) + rest, Bold(v)) <==> w == v
  {
    var line := Bold(w) + rest;
    if w == v {
      assert line[..|Bold(v)|] == Bold(v);
    } else if |v| < |w| {
      assert line[3 + |v|] == w[|v|];
      assert Bold(v)[3 + |v|] == '<';
    } else if |w| < |v| {
      assert line[3 + |w|] == '<';
      assert Bold(v)[3 + |w|] == v[|w|];
      if |Bold(v)| <= |line| {
        assert line[..|Bold(v)|][3 + |w|] == '<';
      }
    } else {
      var k :| 0 <= k < |w| && w[k] != v[k];
      assert line[3 + k] == w[k];
      assert Bold(v)[3 + k] == v[k];
      assert line[..|Bold(v)|][3 + k] == w[k];
    }
  }

  /** A composed message has a line labelled `v` exactly when one of its entries
      carries that tag. */
  lemma TaggedLine(es: seq<Entry>, v: Tag)
    requires WellFormed(es)
    ensures HasLine(Compose(es), Bold(v)) <==> v in Tags(es)
  {
    ComposedLines(es);
    var lines := SplitLines(Compose(es));
    if v in Tags(es) {
      var i :| 0 <= i < |es| && Tags(es)[i] == v;
      TagMatch(v, v, es[i].rest);
      assert StartsWith(lines[i], Bold(v));
    } else {
      forall i | 0 <= i < |lines| ensures !StartsWith(lines[i], Bold(v)) {
        assert Tags(es)[i] == es[i].tag;
        TagMatch(es[i].tag, v, es[i].rest);
      }
    }
  }

  // ---------------------------------------------------------------------------
  // Formatters

  /** A line `<b>tag</b> value`. */
  function LabelEntry(tag: Tag, value: string): Entry
  {
    Entry(tag, " " + value)
  }

  function WalletEntry(wallet: string): Entry
  {
    Entry(WalletTag, " <code>" + wallet + "</code>")
  }

  function TransactionEntry(txHash: string): Entry
  {
    Entry(TransactionTag, " <code>" + txHash + "</code>")
  }

  function BalanceEntry(balance: string): Entry
  {
    Entry(BalanceTag, " " + balance + " " + Config.TokenSymbol)
  }

  function FileSizeEntry(fileSize: string): Entry
  {
    Entry(FileSizeTag, " " + fileSize + " KB")
  }

  /** `error.message || error` behind the Error label. */
  function ErrorEntry(error: string): Entry
  {
    LabelEntry(ErrorTag, ErrorText(error))
  }

  function AttemptEntry(attempt: int, maxRetries: int): Entry
  {
    LabelEntry(AttemptTag, IntToString(attempt) + "/" + IntToString(maxRetries))
  }

  /** The title, Feature and Time lines every notification about a feature opens with. */
  function Heading(title: Tag, feature: string, time: string): seq<Entry>
  {
    [Entry(title, ""), LabelEntry(FeatureTag, feature), LabelEntry(TimeTag, time)]
  }

  /** The optional lines of a success message, one per truthy detail. */
  function SuccessDetails(d: Details): seq<Entry>
  {
    Opt(d.wallet != "", WalletEntry(d.wallet)) + Opt(d.txHash != "", TransactionEntry(d.txHash))
    + Opt(d.balance != "", BalanceEntry(d.balance)) + Opt(d.fileSize != "", FileSizeEntry(d.fileSize))
  }

  function SuccessEntries(feature: string, time: string, d: Details): seq<Entry>
  {
    Heading(SuccessTitle, feature, time) + SuccessDetails(d)
  }

  function FormatSuccessMessage(feature: string, time: string, d: Details): string
  {
    Compose(SuccessEntries(feature, time, d))
  }

  /** The four lines every failure message opens with. */
  function FailureOpening(feature: string, time: string, error: string): seq<Entry>
  {
    Heading(FailureTitle, feature, time) + [ErrorEntry(error)]
  }

  /** The optional lines of a failure message. */
  function FailureDetails(d: Details): seq<Entry>
  {
    Opt(d.wallet != "", WalletEntry(d.wallet)) + Opt(d.attempt != 0, AttemptEntry(d.attempt, d.maxRetries))
  }

  function FailureEntries(feature: string, time: string, error: string, d: Details): seq<Entry>
  {
    FailureOpening(feature, time, error) + FailureDetails(d)
  }

  function FormatFailureMessage(feature: string, time: string, error: string, d: Details): string
  {
    Compose(FailureEntries(feature, time, error, d))
  }

  function WalletErrorOpening(wallet: string, feature: string, time: string, error: string): seq<Entry>
  {
    [Entry(WalletErrorTitle, ""), WalletEntry(wallet), LabelEntry(FeatureTag, feature),
     LabelEntry(TimeTag, time), ErrorEntry(error)]
  }

  function WalletErrorEntries(wallet: string, feature: string, time: string, error: string, d: Details): seq<Entry>
  {
    WalletErrorOpening(wallet, feature, time, error) + Opt(d.balance != "", BalanceEntry(d.balance))
  }

  function FormatWalletErrorMessage(wallet: string, feature: string, time: string, error: string, d: Details): string
  {
    Compose(WalletErrorEntries(wallet, feature, time, error, d))
  }

  function RetryEntries(feature: string, attempt: int, maxRetries: int, time: string, error: string): seq<Entry>
  {
    [Entry(RetryTitle, ""), LabelEntry(FeatureTag, feature), AttemptEntry(attempt, maxRetries),
     LabelEntry(TimeTag, time), ErrorEntry(error)]
  }

  function FormatRetryMessage(feature: string, attempt: int, maxRetries: int, time: string, error: string): string
  {
    Compose(RetryEntries(feature, attempt, maxRetries, time, error))
  }

  /** `((successful / totalRuns) * 100).toFixed(2)`, including JavaScript's "NaN"
      and "Infinity" for a zero denominator. */
  function RateText(successful: nat, totalRuns: nat): string
  {
    if totalRuns == 0 then (if successful == 0 then "NaN" else "Infinity")
    else ToFixed(100 * successful, totalRuns, 2)
  }

  function Bullet(entry: (string, nat)): string
  {
    "\U{2022} " + entry.0 + ": " + NatToString(entry.1)
  }

  function Bullets(features: seq<(string, nat)>): (lines: seq<string>)
    ensures |lines| == |features|
    ensures forall k :: 0 <= k < |features| ==> lines[k] == Bullet(features[k])
  {
    seq(|features|, k requires 0 <= k < |features| => Bullet(features[k]))
  }

  function ReportEntries(date: string, r: Report): seq<Entry>
  {
    [Entry(DailyReportTitle, ""), LabelEntry(DateTag, date),
     LabelEntry(TotalRunsTag, NatToString(r.totalRuns)),
     LabelEntry(SuccessfulTag, NatToString(r.successful)),
     LabelEntry(FailedTag, NatToString(r.failed)),
     LabelEntry(SuccessRateTag, RateText(r.successful, r.totalRuns) + "%")]
  }

  /** The daily report: the statistics, a blank line, and the feature breakdown
      (always present, since an object is truthy even when empty). */
  function FormatDailyReport(date: string, r: Report): string
  {
    JoinLines(Rendered(ReportEntries(date, r)) + ["", Bold(BreakdownTag)] + Bullets(r.features))
  }

  /** The text `sendMessage` is given for a notice. */
  function NoticeText(n: Notice, time: string, date: string): string
  {
    match n
    case SuccessNotice(f, d) => FormatSuccessMessage(f, time, d)
    case FailureNotice(f, e, d) => FormatFailureMessage(f, time, e, d)
    case WalletErrorNotice(w, f, e, d) => FormatWalletErrorMessage(w, f, time, e, d)
    case RetryNotice(f, a, m, e) => FormatRetryMessage(f, a, m, time, e)
    case DailyReportNotice(r) => FormatDailyReport(date, r)
    case TextNotice(t) => t
  }

  // ---------------------------------------------------------------------------
  // Properties of the formatters

  predicate DetailsOneLine(d: Details)
  {
    OneLine(d.wallet) && OneLine(d.txHash) && OneLine(d.balance) && OneLine(d.fileSize)
  }

  lemma TitleLine(title: Tag)
    ensures Render(Entry(title, "")) == Bold(title)
  {
    assert Bold(title) + "" == Bold(title);
  }

  lemma LabelLine(tag: Tag, value: string)
    ensures Render(LabelEntry(tag, value)) == Bold(tag) + " " + value
  {
    assert Bold(tag) + (" " + value) == Bold(tag) + " " + value;
  }

  lemma AttemptLine(attempt: int, maxRetries: int)
    ensures Render(AttemptEntry(attempt, maxRetries))
         == Bold(AttemptTag) + " " + IntToString(attempt) + "/" + IntToString(maxRetries)
  {
    var a, m := IntToString(attempt), IntToString(maxRetries);
    LabelLine(AttemptTag, a + "/" + m);
    assert Bold(AttemptTag) + " " + (a + "/" + m) == Bold(AttemptTag) + " " + a + "/" + m;
  }

  lemma IntOneLine(i: int)
    ensures OneLine(IntToString(i))
  {
    if i >= 0 {
      DigitsOneLine(NatToString(i));
    } else {
      DigitsOneLine(NatToString(-i));
      assert IntToString(i) == "-" + NatToString(-i);
    }
  }

  lemma AttemptOneLine(attempt: int, maxRetries: int)
    ensures OneLine(AttemptEntry(attempt, maxRetries).rest)
  {
    IntOneLine(attempt);
    IntOneLine(maxRetries);
  }

  lemma HeadingLines(title: Tag, feature: string, time: string)
    ensures Rendered(Heading(title, feature, time))
         == [Bold(title), Bold(FeatureTag) + " " + feature, Bold(TimeTag) + " " + time]
  {
    TitleLine(title);
    LabelLine(FeatureTag, feature);
    LabelLine(TimeTag, time);
  }

  lemma SuccessWellFormed(feature: string, time: string, d: Details)
    requires OneLine(feature) && OneLine(time) && DetailsOneLine(d)
    ensures WellFormed(SuccessEntries(feature, time, d))
  {
    var w := Opt(d.wallet != "", WalletEntry(d.wallet));
    var t := Opt(d.txHash != "", TransactionEntry(d.txHash));
    var b := Opt(d.balance != "", BalanceEntry(d.balance));
    var f := Opt(d.fileSize != "", FileSizeEntry(d.fileSize));
    DetailEntriesOneLine(d);
    OptWellFormed(d.wallet != "", WalletEntry(d.wallet));
    OptWellFormed(d.txHash != "", TransactionEntry(d.txHash));
    OptWellFormed(d.balance != "", BalanceEntry(d.balance));
    OptWellFormed(d.fileSize != "", FileSizeEntry(d.fileSize));
    WellFormedAppend(w, t);
    WellFormedAppend(w + t, b);
    WellFormedAppend(w + t + b, f);
    assert SuccessDetails(d) == w + t + b + f;
    HeadingWellFormed(SuccessTitle, feature, time);
    WellFormedAppend(Heading(SuccessTitle, feature, time), SuccessDetails(d));
  }

  lemma OptWellFormed(present: bool, e: Entry)
    requires OneLine(e.rest)
    ensures WellFormed(Opt(present, e))
  {
  }

  lemma HeadingWellFormed(title: Tag, feature: string, time: string)
    requires OneLine(feature) && OneLine(time)
    ensures WellFormed(Heading(title, feature, time))
  {
    var h := Heading(title, feature, time);
    assert h[1].rest == " " + feature && h[2].rest == " " + time;
  }

  /** The success details' lines keep a one-line detail on its line. */
  lemma DetailEntriesOneLine(d: Details)
    requires DetailsOneLine(d)
    ensures OneLine(WalletEntry(d.wallet).rest) && OneLine(TransactionEntry(d.txHash).rest)
    ensures OneLine(BalanceEntry(d.balance).rest) && OneLine(FileSizeEntry(d.fileSize).rest)
  {
  }

  /** A label is among the optional success lines' exactly when its detail is
      truthy. */
  lemma SuccessDetailTagIn(d: Details, x: string)
    ensures x in Tags(SuccessDetails(d))
        <==> ((d.wallet != "" && x == WalletTag) || (d.txHash != "" && x == TransactionTag)
           || (d.balance != "" && x == BalanceTag) || (d.fileSize != "" && x == FileSizeTag))
  {
    var w := Opt(d.wallet != "", WalletEntry(d.wallet));
    var t := Opt(d.txHash != "", TransactionEntry(d.txHash));
    var b := Opt(d.balance != "", BalanceEntry(d.balance));
    var f := Opt(d.fileSize != "", FileSizeEntry(d.fileSize));
    assert SuccessDetails(d) == w + t + b + f;
    TagsAppend(w, t);
    TagsAppend(w + t, b);
    TagsAppend(w + t + b, f);
    var tags := Tags(w) + Tags(t) + Tags(b) + Tags(f);
    assert Tags(SuccessDetails(d)) == tags;
    assert x in tags <==> x in Tags(w) || x in Tags(t) || x in Tags(b) || x in Tags(f);
    InOpt(d.wallet != "", WalletEntry(d.wallet), x);
    InOpt(d.txHash != "", TransactionEntry(d.txHash), x);
    InOpt(d.balance != "", BalanceEntry(d.balance), x);
    InOpt(d.fileSize != "", FileSizeEntry(d.fileSize), x);
  }

  lemma InOpt(present: bool, e: Entry, x: string)
    ensures x in Tags(Opt(present, e)) <==> present && x == e.tag
  {
    OptTags(present, e);
  }

  lemma HeadingTags(title: Tag, feature: string, time: string)
    ensures Tags(Heading(title, feature, time)) == [title, FeatureTag, TimeTag]
  {
  }

  /** The labels of the optional success lines differ from each other and from
      the opening's. */
  lemma SuccessTagsDistinct()
    ensures WalletTag != TransactionTag && WalletTag != BalanceTag && WalletTag != FileSizeTag
    ensures TransactionTag != BalanceTag && TransactionTag != FileSizeTag && BalanceTag != FileSizeTag
    ensures var opening := [SuccessTitle, FeatureTag, TimeTag];
      WalletTag !in opening && TransactionTag !in opening && BalanceTag !in opening && FileSizeTag !in opening
  {
  }

  lemma SuccessTags(feature: string, time: string, d: Details)
    ensures var tags := Tags(SuccessEntries(feature, time, d));
      && (WalletTag in tags <==> d.wallet != "")
      && (TransactionTag in tags <==> d.txHash != "")
      && (BalanceTag in tags <==> d.balance != "")
      && (FileSizeTag in tags <==> d.fileSize != "")
  {
    var tags := Tags(SuccessEntries(feature, time, d));
    var heading := Heading(SuccessTitle, feature, time);
    assert forall x :: x in tags <==> x in Tags(heading) || x in Tags(SuccessDetails(d)) by {
      TagsAppend(heading, SuccessDetails(d));
    }
    HeadingTags(SuccessTitle, feature, time);
    SuccessTagsDistinct();
    SuccessDetailTagIn(d, WalletTag);
    SuccessDetailTagIn(d, TransactionTag);
    SuccessDetailTagIn(d, BalanceTag);
    SuccessDetailTagIn(d, FileSizeTag);
  }

  /** The success message always opens with its title, Feature and Time lines,
      followed by one line per truthy detail. */
  lemma SuccessMessageOpening(feature: string, time: string, d: Details)
    requires OneLine(feature) && OneLine(time) && DetailsOneLine(d)
    ensures var lines := SplitLines(FormatSuccessMessage(feature, time, d));
      && |lines| == 3 + Present(d.wallet != "") + Present(d.txHash != "")
                      + Present(d.balance != "") + Present(d.fileSize != "")
      && lines[..3] == [Bold(SuccessTitle), Bold(FeatureTag) + " " + feature, Bold(TimeTag) + " " + time]
  {
    var lines := SplitLines(FormatSuccessMessage(feature, time, d));
    var h := Heading(SuccessTitle, feature, time);
    assert lines == Rendered(h) + Rendered(SuccessDetails(d)) by {
      SuccessWellFormed(feature, time, d);
      ComposedLines(SuccessEntries(feature, time, d));
      RenderedAppend(h, SuccessDetails(d));
    }
    HeadingLines(SuccessTitle, feature, time);
    assert |SuccessDetails(d)| == Present(d.wallet != "") + Present(d.txHash != "")
                                + Present(d.balance != "") + Present(d.fileSize != "");
  }

  /** The success message has a Wallet, Transaction, Balance or File Size line
      exactly when that detail is truthy. */
  lemma SuccessMessageFields(feature: string, time: string, d: Details)
    requires OneLine(feature) && OneLine(time) && DetailsOneLine(d)
    ensures var m := FormatSuccessMessage(feature, time, d);
      && (HasLine(m, Bold(WalletTag)) <==> d.wallet != "")
      && (HasLine(m, Bold(TransactionTag)) <==> d.txHash != "")
      && (HasLine(m, Bold(BalanceTag)) <==> d.balance != "")
      && (HasLine(m, Bold(FileSizeTag)) <==> d.fileSize != "")
  {
    var es := SuccessEntries(feature, time, d);
    assert WellFormed(es) by { SuccessWellFormed(feature, time, d); }
    SuccessTags(feature, time, d);
    TaggedLine(es, WalletTag);
    TaggedLine(es, TransactionTag);
    TaggedLine(es, BalanceTag);
    TaggedLine(es, FileSizeTag);
  }

  lemma FailureWellFormed(feature: string, time: string, error: string, d: Details)
    requires OneLine(feature) && OneLine(time) && OneLine(error) && OneLine(d.wallet)
    ensures WellFormed(FailureEntries(feature, time, error, d))
  {
    var w := Opt(d.wallet != "", WalletEntry(d.wallet));
    var a := Opt(d.attempt != 0, AttemptEntry(d.attempt, d.maxRetries));
    AttemptOneLine(d.attempt, d.maxRetries);
    WellFormedAppend(w, a);
    WellFormedAppend(Heading(FailureTitle, feature, time), [ErrorEntry(error)]);
    WellFormedAppend(FailureOpening(feature, time, error), FailureDetails(d));
  }

  lemma FailureTagsDistinct()
    ensures WalletTag != AttemptTag
    ensures var opening := [FailureTitle, FeatureTag, TimeTag, ErrorTag];
      WalletTag !in opening && AttemptTag !in opening
  {
  }

  lemma FailureTags(feature: string, time: string, error: string, d: Details)
    ensures var tags := Tags(FailureEntries(feature, time, error, d));
      && (WalletTag in tags <==> d.wallet != "")
      && (AttemptTag in tags <==> d.attempt != 0)
  {
    var tags := Tags(FailureEntries(feature, time, error, d));
    var tw := if d.wallet != "" then [WalletTag] else [];
    var ta := if d.attempt != 0 then [AttemptTag] else [];
    assert tags == [FailureTitle, FeatureTag, TimeTag, ErrorTag] + (tw + ta) by {
      var w := Opt(d.wallet != "", WalletEntry(d.wallet));
      var a := Opt(d.attempt != 0, AttemptEntry(d.attempt, d.maxRetries));
      TagsAppend(Heading(FailureTitle, feature, time), [ErrorEntry(error)]);
      TagsAppend(w, a);
      TagsAppend(FailureOpening(feature, time, error), FailureDetails(d));
    }
    FailureTagsDistinct();
  }

  lemma FailureOpeningLines(feature: string, time: string, error: string)
    ensures Rendered(FailureOpening(feature, time, error))
         == [Bold(FailureTitle), Bold(FeatureTag) + " " + feature, Bold(TimeTag) + " " + time,
             Bold(ErrorTag) + " " + (if error != "" then error else "Error")]
  {
    RenderedAppend(Heading(FailureTitle, feature, time), [ErrorEntry(error)]);
    HeadingLines(FailureTitle, feature, time);
    LabelLine(ErrorTag, ErrorText(error));
  }

  /** The failure message always opens with its title, Feature, Time and Error
      lines; the Error line shows the message, or "Error" when it is empty. */
  lemma FailureMessageOpening(feature: string, time: string, error: string, d: Details)
    requires OneLine(feature) && OneLine(time) && OneLine(error) && OneLine(d.wallet)
    ensures var lines := SplitLines(FormatFailureMessage(feature, time, error, d));
      && |lines| == 4 + Present(d.wallet != "") + Present(d.attempt != 0)
      && lines[..4] == [Bold(FailureTitle), Bold(FeatureTag) + " " + feature, Bold(TimeTag) + " " + time,
                        Bold(ErrorTag) + " " + (if error != "" then error else "Error")]
  {
    var lines := SplitLines(FormatFailureMessage(feature, time, error, d));
    var opening := FailureOpening(feature, time, error);
    assert lines == Rendered(opening) + Rendered(FailureDetails(d)) by {
      FailureWellFormed(feature, time, error, d);
      ComposedLines(FailureEntries(feature, time, error, d));
      RenderedAppend(opening, FailureDetails(d));
    }
    FailureOpeningLines(feature, time, error);
    assert |FailureDetails(d)| == Present(d.wallet != "") + Present(d.attempt != 0);
  }

  /** The failure message has a Wallet line exactly when the wallet detail is
      truthy, and an Attempt line exactly when the attempt detail is. */
  lemma FailureMessageFields(feature: string, time: string, error: string, d: Details)
    requires OneLine(feature) && OneLine(time) && OneLine(error) && OneLine(d.wallet)
    ensures var m := FormatFailureMessage(feature, time, error, d);
      && (HasLine(m, Bold(WalletTag)) <==> d.wallet != "")
      && (HasLine(m, Bold(AttemptTag)) <==> d.attempt != 0)
  {
    var es := FailureEntries(feature, time, error, d);
    assert WellFormed(es) by { FailureWellFormed(feature, time, error, d); }
    FailureTags(feature, time, error, d);
    TaggedLine(es, WalletTag);
    TaggedLine(es, AttemptTag);
  }

  lemma WalletErrorOpeningLines(wallet: string, feature: string, time: string, error: string)
    ensures Rendered(WalletErrorOpening(wallet, feature, time, error))
         == [Bold(WalletErrorTitle), Bold(WalletTag) + " <code>" + wallet + "</code>",
             Bold(FeatureTag) + " " + feature, Bold(TimeTag) + " " + time,
             Bold(ErrorTag) + " " + ErrorText(error)]
  {
    TitleLine(WalletErrorTitle);
    assert Render(WalletEntry(wallet)) == Bold(WalletTag) + " <code>" + wallet + "</code>" by {
      assert Bold(WalletTag) + (" <code>" + wallet + "</code>") == Bold(WalletTag) + " <code>" + wallet + "</code>";
    }
    LabelLine(FeatureTag, feature);
    LabelLine(TimeTag, time);
    LabelLine(ErrorTag, ErrorText(error));
  }

  lemma WalletErrorTagsDistinct()
    ensures BalanceTag !in [WalletErrorTitle, WalletTag, FeatureTag, TimeTag, ErrorTag]
  {
  }

  /** The wallet-error message opens with its title and the Wallet, Feature, Time
      and Error lines, and has a Balance line exactly when the balance detail is
      truthy. */
  lemma WalletErrorMessageLines(wallet: string, feature: string, time: string, error: string, d: Details)
    requires OneLine(wallet) && OneLine(feature) && OneLine(time) && OneLine(error) && OneLine(d.balance)
    ensures var m := FormatWalletErrorMessage(wallet, feature, time, error, d);
      && |SplitLines(m)| == 5 + Present(d.balance != "")
      && SplitLines(m)[..5] == [Bold(WalletErrorTitle), Bold(WalletTag) + " <code>" + wallet + "</code>",
                                Bold(FeatureTag) + " " + feature, Bold(TimeTag) + " " + time,
                                Bold(ErrorTag) + " " + ErrorText(error)]
      && (HasLine(m, Bold(BalanceTag)) <==> d.balance != "")
  {
    var es := WalletErrorEntries(wallet, feature, time, error, d);
    var m := FormatWalletErrorMessage(wallet, feature, time, error, d);
    WalletErrorSplit(wallet, feature, time, error, d);
    WalletErrorOpeningLines(wallet, feature, time, error);
    WalletErrorBalanceTag(wallet, feature, time, error, d);
    TaggedLine(es, BalanceTag);
  }

  /** The wallet-error entries stay on their lines, so the message splits into
      the opening's lines followed by the optional balance line. */
  lemma WalletErrorSplit(wallet: string, feature: string, time: string, error: string, d: Details)
    requires OneLine(wallet) && OneLine(feature) && OneLine(time) && OneLine(error) && OneLine(d.balance)
    ensures WellFormed(WalletErrorEntries(wallet, feature, time, error, d))
    ensures SplitLines(FormatWalletErrorMessage(wallet, feature, time, error, d))
         == Rendered(WalletErrorOpening(wallet, feature, time, error)) + Rendered(Opt(d.balance != "", BalanceEntry(d.balance)))
  {
    var opening := WalletErrorOpening(wallet, feature, time, error);
    var b := Opt(d.balance != "", BalanceEntry(d.balance));
    var es := WalletErrorEntries(wallet, feature, time, error, d);
    WellFormedAppend(opening, b);
    ComposedLines(es);
    RenderedAppend(opening, b);
  }

  /** The balance label is among the wallet-error entries' exactly when the
      balance detail is truthy. */
  lemma WalletErrorBalanceTag(wallet: string, feature: string, time: string, error: string, d: Details)
    ensures BalanceTag in Tags(WalletErrorEntries(wallet, feature, time, error, d)) <==> d.balance != ""
  {
    var opening := WalletErrorOpening(wallet, feature, time, error);
    var b := Opt(d.balance != "", BalanceEntry(d.balance));
    TagsAppend(opening, b);
    OptTags(d.balance != "", BalanceEntry(d.balance));
    assert Tags(opening) == [WalletErrorTitle, WalletTag, FeatureTag, TimeTag, ErrorTag];
    WalletErrorTagsDistinct();
  }

  /** The retry message has exactly five lines, the third showing
      `attempt/maxRetries`. */
  lemma RetryMessageLines(feature: string, attempt: int, maxRetries: int, time: string, error: string)
    requires OneLine(feature) && OneLine(time) && OneLine(error)
    ensures var lines := SplitLines(FormatRetryMessage(feature, attempt, maxRetries, time, error));
      && |lines| == 5
      && lines[0] == Bold(RetryTitle)
      && lines[2] == Bold(AttemptTag) + " " + IntToString(attempt) + "/" + IntToString(maxRetries)
      && lines[4] == Bold(ErrorTag) + " " + ErrorText(error)
  {
    var es := RetryEntries(feature, attempt, maxRetries, time, error);
    assert SplitLines(FormatRetryMessage(feature, attempt, maxRetries, time, error)) == Rendered(es) by {
      AttemptOneLine(attempt, maxRetries);
      ComposedLines(es);
    }
    RetryLines(feature, attempt, maxRetries, time, error);
  }

  lemma RetryLines(feature: string, attempt: int, maxRetries: int, time: string, error: string)
    ensures var lines := Rendered(RetryEntries(feature, attempt, maxRetries, time, error));
      && lines[0] == Bold(RetryTitle)
      && lines[2] == Bold(AttemptTag) + " " + IntToString(attempt) + "/" + IntToString(maxRetries)
      && lines[4] == Bold(ErrorTag) + " " + ErrorText(error)
  {
    var es := RetryEntries(feature, attempt, maxRetries, time, error);
    assert Render(es[0]) == Bold(RetryTitle) by { TitleLine(RetryTitle); }
    assert Render(es[2]) == Bold(AttemptTag) + " " + IntToString(attempt) + "/" + IntToString(maxRetries) by {
      AttemptLine(attempt, maxRetries);
    }
    assert Render(es[4]) == Bold(ErrorTag) + " " + ErrorText(error) by {
      LabelLine(ErrorTag, ErrorText(error));
    }
  }

  lemma RateOneLine(successful: nat, totalRuns: nat)
    ensures OneLine(RateText(successful, totalRuns))
  {
    if totalRuns > 0 {
      var n := Rounded(100 * successful, totalRuns, 2);
      var whole, frac := NatToString(Quotient(n, Pow10(2))), PadLeft(NatToString(Remainder(n, Pow10(2))), 2, '0');
      PadLeftDigits(NatToString(Remainder(n, Pow10(2))), 2);
      DigitsOneLine(whole);
      DigitsOneLine(frac);
      assert RateText(successful, totalRuns) == whole + "." + frac;
    }
  }

  lemma ReportEntriesWellFormed(date: string, r: Report)
    requires OneLine(date)
    ensures WellFormed(ReportEntries(date, r))
  {
    DigitsOneLine(NatToString(r.totalRuns));
    DigitsOneLine(NatToString(r.successful));
    DigitsOneLine(NatToString(r.failed));
    RateOneLine(r.successful, r.totalRuns);
  }

  lemma BulletsOneLine(features: seq<(string, nat)>)
    requires forall k :: 0 <= k < |features| ==> OneLine(features[k].0)
    ensures AllOneLine(Bullets(features))
  {
    forall k | 0 <= k < |features| ensures OneLine(Bullets(features)[k]) {
      DigitsOneLine(NatToString(features[k].1));
    }
  }

  /** The daily report has eight fixed lines followed by exactly one bullet per
      entry of the feature counts, in their order. */
  lemma DailyReportLines(date: string, r: Report)
    requires OneLine(date)
    requires forall k :: 0 <= k < |r.features| ==> OneLine(r.features[k].0)
    ensures var lines := SplitLines(FormatDailyReport(date, r));
      && |lines| == 8 + |r.features|
      && lines[6] == "" && lines[7] == Bold(BreakdownTag)
      && lines[8..] == Bullets(r.features)
  {
    var head := Rendered(ReportEntries(date, r));
    var fixed := head + ["", Bold(BreakdownTag)];
    var all := fixed + Bullets(r.features);
    assert AllOneLine(fixed) by {
      ReportEntriesWellFormed(date, r);
      RenderedOneLine(ReportEntries(date, r));
      AllOneLineAppend(head, ["", Bold(BreakdownTag)]);
    }
    BulletsOneLine(r.features);
    AllOneLineAppend(fixed, Bullets(r.features));
    SplitJoinLines(all);
    assert all[8..] == Bullets(r.features);
  }
}
