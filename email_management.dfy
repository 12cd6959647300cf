/**
 * `EmailManagementCard`: the last-24-hours counters over `email_logs`, the category filter of
 * the pending and sent lists, and `handleConfigUpdate`, which turns an edited number into a
 * replacement `email_queue_config` record. Times are integer milliseconds and `now` stands
 * for `Date.now()`; `parseInt` is a simplified decimal parser (see `ParseInt`).
 */
module EmailManagement {
  import opened Wrappers
  import opened Effects
  import opened Text
  import opened Lists

  /** A row of `email_logs`; `category` is the nullable `email_category`. */
  datatype EmailLog = EmailLog(id: string, memberNumber: string, emailType: string, status: string,
                               category: Option<string>, createdAt: int)

  // ---------------------------------------------------------------- statistics

  const DayMs := 24 * 60 * 60 * 1000

  /** The counters; each one is a `filter(...).length` over the fetched logs. */
  datatype Stats = Stats(pending: nat, sent: nat, failed: nat, payment: nat, general: nat)

  /** `log => log.status === status`. */
  function HasStatus(status: string): EmailLog -> bool {
    (l: EmailLog) => l.status == status
  }

  /** `log => log.email_category === category`; a null category matches no name. */
  function InCategory(category: string): EmailLog -> bool {
    (l: EmailLog) => l.category == Some(category)
  }

  /**
   * The stats object. A log is counted under at most one status and at most one category,
   * so the three status counters together, and the two category counters together, never
   * exceed the number of logs.
   */
  function StatsOf(logs: seq<EmailLog>): (st: Stats)
    ensures st.pending + st.sent + st.failed <= |logs|
    ensures st.payment + st.general <= |logs|
  {
    var pending, sent, failed := HasStatus("pending"), HasStatus("sent"), HasStatus("failed");
    assert "pending"[0] != "sent"[0] && "pending"[0] != "failed"[0] && "sent"[0] != "failed"[0];
    DisjointCountsAdd(logs, pending, sent);
    DisjointCountsFit(logs, Either(pending, sent), failed);
    assert "payment"[1] != "general"[1];
    DisjointCountsFit(logs, InCategory("payment"), InCategory("general"));
    Stats(Count(logs, pending), Count(logs, sent), Count(logs, failed),
          Count(logs, InCategory("payment")), Count(logs, InCategory("general")))
  }

  /**
   * The counters are a tally: no logs give zeros, and one more log raises exactly the
   * counter of its own status (compared exactly, so "Pending" counts nowhere) and of its own
   * category, by one.
   */
  lemma StatsTally(logs: seq<EmailLog>, l: EmailLog)
    ensures StatsOf([]) == Stats(0, 0, 0, 0, 0)
    ensures var before, after := StatsOf(logs), StatsOf(logs + [l]);
      && after.pending == before.pending + (if l.status == "pending" then 1 else 0)
      && after.sent == before.sent + (if l.status == "sent" then 1 else 0)
      && after.failed == before.failed + (if l.status == "failed" then 1 else 0)
      && after.payment == before.payment + (if l.category == Some("payment") then 1 else 0)
      && after.general == before.general + (if l.category == Some("general") then 1 else 0)
  {
    CountAppendOne(logs, l, HasStatus("pending"));
    CountAppendOne(logs, l, HasStatus("sent"));
    CountAppendOne(logs, l, HasStatus("failed"));
    CountAppendOne(logs, l, InCategory("payment"));
    CountAppendOne(logs, l, InCategory("general"));
  }

  /** `.gte('created_at', now - 24h)`. */
  function Recent(now: int): EmailLog -> bool {
    (l: EmailLog) => l.createdAt >= now - DayMs
  }

  /** The `email-stats` query over the whole table. */
  function StatsQuery(table: seq<EmailLog>, now: int): Stats {
    StatsOf(Filter(table, Recent(now)))
  }

  /** A log older than a day changes no counter; a recent one is tallied. */
  lemma StatsWindow(table: seq<EmailLog>, l: EmailLog, now: int)
    ensures l.createdAt < now - DayMs ==> StatsQuery(table + [l], now) == StatsQuery(table, now)
    ensures l.createdAt >= now - DayMs ==> StatsQuery(table + [l], now) == StatsOf(Filter(table, Recent(now)) + [l])
  {
    FilterAppend(table, [l], Recent(now));
    var recent := Filter(table, Recent(now));
    assert Filter([l], Recent(now)) == (if Recent(now)(l) then [l] else []) + Filter([l][1..], Recent(now));
    if l.createdAt < now - DayMs {
      assert Filter(table + [l], Recent(now)) == recent + [];
      assert recent + [] == recent;
    } else {
      assert Filter(table + [l], Recent(now)) == recent + [l];
    }
  }

  // ---------------------------------------------------------------- category filter

  /** `email => filterType === 'all' || email.email_category === filterType`. */
  function Matches(filterType: string): EmailLog -> bool {
    (e: EmailLog) => filterType == "all" || e.category == Some(filterType)
  }

  /** `emails?.filter(...)`: undefined while the list has not loaded. */
  function FilterEmails(emails: Option<seq<EmailLog>>, filterType: string): (r: Option<seq<EmailLog>>)
    ensures r.None? <==> emails.None?
    ensures r.Some? ==> |r.value| <= |emails.value|
  {
    match emails
    case None => None
    case Some(es) => Some(Filter(es, Matches(filterType)))
  }

  /** The filter 'all' shows the list unchanged. */
  lemma AllShowsEverything(emails: Option<seq<EmailLog>>)
    ensures FilterEmails(emails, "all") == emails
  {
    if emails.Some? {
      FilterAll(emails.value, Matches("all"));
    }
  }

  /**
   * Any other filter shows exactly the entries of that category, in their original order;
   * entries without a category are hidden.
   */
  lemma OtherFilterKeepsCategory(es: seq<EmailLog>, filterType: string)
    requires filterType != "all"
    ensures var r := FilterEmails(Some(es), filterType).value;
      && IsSubsequence(r, es)
      && (forall e :: e in r <==> e in es && e.category == Some(filterType))
  {
    FilterSelects(es, Matches(filterType));
    FilterPreservesOrder(es, Matches(filterType));
  }

  // ---------------------------------------------------------------- parseInt

  function DigitValue(c: char): nat
    requires IsDigit(c)
  {
    c as int - '0' as int
  }

  predicate AllDigits(d: string) {
    forall i :: 0 <= i < |d| ==> IsDigit(d[i])
  }

  /** The value of a string of decimal digits, most significant first. */
  function Value(d: string): nat
    requires AllDigits(d)
  {
    if |d| == 0 then 0 else Value(d[..|d| - 1]) * 10 + DigitValue(d[|d| - 1])
  }

  /** The longest prefix made of decimal digits. */
  function LeadingDigits(s: string): (d: string)
    ensures |d| <= |s| && d == s[..|d|]
    ensures AllDigits(d)
    ensures |d| < |s| ==> !IsDigit(s[|d|])
  {
    if |s| > 0 && IsDigit(s[0]) then [s[0]] + LeadingDigits(s[1..]) else []
  }

  /** The input without its leading whitespace: what is dropped is all whitespace, and no more. */
  function SkipSpaces(s: string): (t: string)
    ensures |t| <= |s| && t == s[|s| - |t|..]
    ensures AllWhitespace(s[..|s| - |t|])
    ensures t == [] || !IsWhitespace(t[0])
  {
    if |s| > 0 && IsWhitespace(s[0]) then SkipSpaces(s[1..]) else s
  }

  /** The digits at the start of `u`, read as a number; `None` when there are none. */
  function Unsigned(u: string): (r: Option<nat>)
    ensures r.None? <==> u == [] || !IsDigit(u[0])
  {
    var d := LeadingDigits(u);
    if d == [] then None else Some(Value(d))
  }

  /**
   * `parseInt(value)` read in base ten: leading whitespace is skipped, one optional sign is
   * read, then the longest run of digits; anything after it is ignored, and no digits at all
   * is `NaN` (here `None`).
   */
  function ParseInt(s: string): Option<int> {
    var t := SkipSpaces(s);
    if |t| > 0 && t[0] == '-' then
      match Unsigned(t[1..])
      case None => None
      case Some(k) => Some(-(k as int))
    else if |t| > 0 && t[0] == '+' then
      match Unsigned(t[1..])
      case None => None
      case Some(k) => Some(k)
    else
      match Unsigned(t)
      case None => None
      case Some(k) => Some(k)
  }

  /** The decimal rendering of a natural number, as an `<input type="number">` holds it. */
  function ShowNat(n: nat): (d: string)
    ensures |d| >= 1 && AllDigits(d)
  {
    if n < 10 then [('0' as int + n) as char] else ShowNat(n / 10) + [('0' as int + n % 10) as char]
  }

  lemma {:induction false} ValueOfShowNat(n: nat)
    ensures Value(ShowNat(n)) == n
  {
    if n >= 10 {
      ValueOfShowNat(n / 10);
      var d := ShowNat(n);
      assert d[..|d| - 1] == ShowNat(n / 10);
    }
  }

  lemma {:induction false} LeadingDigitsStopAtRest(d: string, rest: string)
    requires AllDigits(d)
    requires rest == [] || !IsDigit(rest[0])
    ensures LeadingDigits(d + rest) == d
  {
    if |d| > 0 {
      assert (d + rest)[1..] == d[1..] + rest;
      LeadingDigitsStopAtRest(d[1..], rest);
    } else {
      assert d + rest == rest;
    }
  }

  /** A written number followed by non-digit text reads as that number. */
  lemma UnsignedShown(n: nat, rest: string)
    requires rest == [] || !IsDigit(rest[0])
    ensures Unsigned(ShowNat(n) + rest) == Some(n)
  {
    ValueOfShowNat(n);
    LeadingDigitsStopAtRest(ShowNat(n), rest);
  }

  /** Reading a written number back gives the number, whatever non-digit text follows it ("12abc" reads as 12). */
  lemma ParseShownNumber(n: nat, rest: string)
    requires rest == [] || !IsDigit(rest[0])
    ensures ParseInt(ShowNat(n) + rest) == Some(n)
  {
    UnsignedShown(n, rest);
    var s := ShowNat(n) + rest;
    assert s[0] == ShowNat(n)[0];
    assert IsDigit(s[0]);
    assert s[0] != '-' && s[0] != '+' && !IsWhitespace(s[0]);
    assert SkipSpaces(s) == s;
    assert Unsigned(s) == Some(n);
  }

  /** With a minus sign in front, the same text reads as the negated number. */
  lemma ParseShownNegative(n: nat, rest: string)
    requires rest == [] || !IsDigit(rest[0])
    ensures ParseInt("-" + ShowNat(n) + rest) == Some(-(n as int))
  {
    UnsignedShown(n, rest);
    var s := ShowNat(n) + rest;
    var m := "-" + ShowNat(n) + rest;
    assert m == "-" + s;
    assert m[0] == '-' && m[1..] == s;
    assert !IsWhitespace(m[0]);
    assert SkipSpaces(m) == m;
  }

  /** A value with no digit in it, such as the empty field, is `NaN`. */
  lemma NoDigitsIsNaN(s: string)
    requires forall i :: 0 <= i < |s| ==> !IsDigit(s[i])
    ensures ParseInt(s) == None
  {
    var t := SkipSpaces(s);
    if |t| > 1 {
      assert t[1] == s[|s| - |t| + 1];
    }
    if |t| > 0 {
      assert t[0] == s[|s| - |t|];
    }
  }

  /** `isNaN(numValue) || numValue < 0` rejects the value; otherwise the number to store. */
  function AcceptedNumber(value: string): (n: Option<nat>)
    ensures n.Some? <==> ParseInt(value).Some? && ParseInt(value).value >= 0
    ensures n.Some? ==> n.value == ParseInt(value).value
  {
    match ParseInt(value)
    case None => None
    case Some(k) => if k < 0 then None else Some(k)
  }

  // ---------------------------------------------------------------- queue configuration

  /** A row of `email_queue_config`. */
  datatype QueueConfig = QueueConfig(id: string, dailyLimit: int, autoProcessInterval: int)

  datatype ConfigField = DailyLimit | AutoProcessInterval

  /** `configs.find(c => c.id === id)`: the first record with that id. */
  function FindConfig(configs: seq<QueueConfig>, id: string): (r: Option<QueueConfig>)
    ensures r.Some? ==> r.value in configs && r.value.id == id
    ensures r.None? <==> forall c :: c in configs ==> c.id != id
  {
    if |configs| == 0 then None
    else if configs[0].id == id then Some(configs[0])
    else
      assert forall c :: c in configs ==> c == configs[0] || c in configs[1..];
      FindConfig(configs[1..], id)
  }

  /**
   * `handleConfigUpdate(id, field, value)`: the record handed to the update mutation, or
   * `None` when the handler returns early.
   */
  function ConfigPayload(queueConfig: Option<seq<QueueConfig>>, id: string, field: ConfigField, value: string): Option<QueueConfig> {
    match AcceptedNumber(value)
    case None => None
    case Some(n) =>
      if queueConfig.None? then None
      else match FindConfig(queueConfig.value, id)
        case None => None
        case Some(c) =>
          Some(QueueConfig(id,
                           if field == DailyLimit then n else c.dailyLimit,
                           if field == AutoProcessInterval then n else c.autoProcessInterval))
  }

  /**
   * The handler sends an update exactly when the value reads as a non-negative number and the
   * loaded configuration has a record with that id. The update carries that id, the new
   * number in the edited field, and the other field copied from the record found.
   */
  lemma ConfigPayloadRule(queueConfig: Option<seq<QueueConfig>>, id: string, field: ConfigField, value: string)
    ensures var p := ConfigPayload(queueConfig, id, field, value);
      && (p.Some? <==> AcceptedNumber(value).Some? && queueConfig.Some?
                       && exists c :: c in queueConfig.value && c.id == id)
      && (p.Some? ==>
            var n, c := AcceptedNumber(value).value, FindConfig(queueConfig.value, id).value;
            && p.value.id == id && c in queueConfig.value && c.id == id
            && (field == DailyLimit ==> p.value.dailyLimit == n && p.value.autoProcessInterval == c.autoProcessInterval)
            && (field == AutoProcessInterval ==> p.value.autoProcessInterval == n && p.value.dailyLimit == c.dailyLimit))
  {
    if AcceptedNumber(value).Some? && queueConfig.Some? && FindConfig(queueConfig.value, id).Some? {
      var c := FindConfig(queueConfig.value, id).value;
      assert c in queueConfig.value && c.id == id;
    }
  }

  /** A cleared field, or a negative number, is ignored. */
  lemma RejectedInputs(configs: Option<seq<QueueConfig>>, id: string, field: ConfigField, n: nat)
    ensures ConfigPayload(configs, id, field, "") == None
    ensures n > 0 ==> ConfigPayload(configs, id, field, "-" + ShowNat(n)) == None
  {
    NoDigitsIsNaN("");
    ParseShownNegative(n, "");
    assert "-" + ShowNat(n) + "" == "-" + ShowNat(n);
  }

  /** A written number for a loaded record is sent; nothing is sent before the data has loaded. */
  lemma AcceptedInputs(configs: seq<QueueConfig>, c: QueueConfig, field: ConfigField, n: nat)
    requires c in configs
    ensures ConfigPayload(Some(configs), c.id, field, ShowNat(n)).Some?
    ensures ConfigPayload(None, c.id, field, ShowNat(n)) == None
  {
    ParseShownNumber(n, "");
    assert ShowNat(n) + "" == ShowNat(n);
    assert AcceptedNumber(ShowNat(n)) == Some(n);
    assert FindConfig(configs, c.id).Some?;
  }

  /** `.update({ daily_limit, auto_process_interval }).eq('id', id)` on the table. */
  function ApplyConfig(table: seq<QueueConfig>, p: QueueConfig): (r: seq<QueueConfig>)
    ensures |r| == |table|
    ensures forall i :: 0 <= i < |table| ==>
      r[i] == if table[i].id == p.id then table[i].(dailyLimit := p.dailyLimit, autoProcessInterval := p.autoProcessInterval) else table[i]
  {
    if |table| == 0 then []
    else
      var row := if table[0].id == p.id then table[0].(dailyLimit := p.dailyLimit, autoProcessInterval := p.autoProcessInterval) else table[0];
      [row] + ApplyConfig(table[1..], p)
  }

  // ---------------------------------------------------------------- the card

  /** The card's filter, the loaded `queue-config` data, and the `email_queue_config` table. */
  datatype CardState = CardState(filterType: string, queueConfig: Option<seq<QueueConfig>>, table: seq<QueueConfig>)

  const QueueConfigKey := "queue-config"
  const SettingsUpdatedToast := Toast(Info, "Settings Updated", "Email queue configuration has been updated successfully")

  /** `handleConfigUpdate` with the mutation's `onSuccess` / `onError`; `error` is the update's error, if any. */
  function AfterConfigUpdate(s: CardState, id: string, field: ConfigField, value: string, error: Option<Failure>): (CardState, seq<Effect>) {
    match ConfigPayload(s.queueConfig, id, field, value)
    case None => (s, [])
    case Some(p) =>
      var call := Backend(UpdateQueueConfig(p.id, p.dailyLimit, p.autoProcessInterval));
      match error
      case Some(e) => (s, [call, Toast(Destructive, "Error", e.message)])
      case None => (s.(table := ApplyConfig(s.table, p)), [call, InvalidateQueries(Some(QueueConfigKey)), SettingsUpdatedToast])
  }

  /**
   * An ignored edit does nothing at all. A sent update changes only the rows with that id,
   * and only when it succeeds; the `queue-config` query is invalidated exactly then, and a
   * failure shows the error's message instead. The filter and the loaded data never change.
   */
  lemma ConfigUpdateOutcome(s: CardState, id: string, field: ConfigField, value: string, error: Option<Failure>)
    ensures var (r, effects) := AfterConfigUpdate(s, id, field, value, error);
      var p := ConfigPayload(s.queueConfig, id, field, value);
      && r.filterType == s.filterType && r.queueConfig == s.queueConfig && |r.table| == |s.table|
      && (effects == [] <==> p.None?)
      && (InvalidateQueries(Some(QueueConfigKey)) in effects <==> p.Some? && error.None?)
      && (p.None? || error.Some? ==> r.table == s.table)
      && (p.Some? && error.None? ==> forall i :: 0 <= i < |s.table| ==>
            && r.table[i].id == s.table[i].id
            && (s.table[i].id == id ==> r.table[i].dailyLimit == p.value.dailyLimit
                                        && r.table[i].autoProcessInterval == p.value.autoProcessInterval)
            && (s.table[i].id != id ==> r.table[i] == s.table[i]))
  {
    ConfigPayloadRule(s.queueConfig, id, field, value);
    var (r, effects) := AfterConfigUpdate(s, id, field, value, error);
    if ConfigPayload(s.queueConfig, id, field, value).Some? && error.Some? {
      assert effects == [effects[0], effects[1]];
      assert effects[0].Backend? && effects[1].Toast?;
    }
  }

  /** The card's state as fields, with the effects performed so far. */
  class Card {
    var filterType: string
    var queueConfig: Option<seq<QueueConfig>>
    var table: seq<QueueConfig>
    var trace: seq<Effect>

    function State(): CardState
      reads this
    {
      CardState(filterType, queueConfig, table)
    }

    /** The filter starts at 'all' and the configuration query has not answered yet. */
    constructor (rows: seq<QueueConfig>)
      ensures State() == CardState("all", None, rows) && trace == []
    {
      filterType := "all";
      queueConfig := None;
      table := rows;
      trace := [];
    }

    /** The select's `onValueChange`. */
    method SetFilter(f: string)
      modifies this
      ensures State() == old(State()).(filterType := f) && trace == old(trace)
    {
      filterType := f;
    }

    /** The `queue-config` query answers with the table's rows. */
    method ConfigLoaded()
      modifies this
      ensures State() == old(State()).(queueConfig := Some(old(table))) && trace == old(trace)
    {
      queueConfig := Some(table);
    }

    /** An edit of one of the two number inputs of record `id`. */
    method HandleConfigUpdate(id: string, field: ConfigField, value: string, error: Option<Failure>)
      modifies this
      ensures State() == AfterConfigUpdate(old(State()), id, field, value, error).0
      ensures trace == old(trace) + AfterConfigUpdate(old(State()), id, field, value, error).1
    {
      var payload := ConfigPayload(queueConfig, id, field, value);
      if payload.None? {
        return;
      }
      var p := payload.value;
      var call := Backend(UpdateQueueConfig(p.id, p.dailyLimit, p.autoProcessInterval));
      match error {
        case Some(e) =>
          trace := trace + [call, Toast(Destructive, "Error", e.message)];
        case None =>
          table := ApplyConfig(table, p);
          trace := trace + [call, InvalidateQueries(Some(QueueConfigKey)), SettingsUpdatedToast];
      }
    }
  }
}
