/** The strings the program uses as document ids, and why the structured values of
    this model stand for them: the encodings are injective on accepted anchors. */
module Keys {
  import opened Model

  /** What the anchor schemas admit: a repository full name holds no `#` or `:`, a work
      id no `/` or `:`, and neither a quote or a backslash. */
  predicate AcceptedId(id: TaskId) {
    match id
    case Github(repo, _) => '#' !in repo && ':' !in repo && Unquoted(repo)
    case Work(workId) => '/' !in workId && ':' !in workId && Unquoted(workId)
  }

  predicate Unquoted(text: string) {
    '"' !in text && '\\' !in text
  }

  function Decimal(n: nat): (text: string)
    ensures text != [] && forall c | c in text :: '0' <= c <= '9'
  {
    var last := ['0' + (n % 10) as char];
    if n < 10 then last else Decimal(n / 10) + last
  }

  function TaskKey(id: TaskId): string {
    match id
    case Github(repo, issue) => repo + "#" + Decimal(issue)
    case Work(workId) => "work:" + workId
  }

  function RunKey(r: RunId): string {
    TaskKey(r.task) + "/" + ("r" + Decimal(r.n))
  }

  function SourceName(source: RequestSource): string {
    match source
    case Caller => "caller"
    case AutoRetry => "auto-retry"
    case ProviderFallback => "provider-fallback"
    case DeliveryCorrection => "delivery-correction"
  }

  function RequestText(id: RequestId): string {
    match id
    case Raw(text) => text
    case RetryOf(run) => "retry:" + RunKey(run)
    case FallbackOf(run) => "fallback:" + RunKey(run)
    case CorrectionOf(run) => "delivery:" + RunKey(run)
  }

  function HistoryKey(k: RequestKey): string {
    SourceName(k.source) + ":" + RequestText(k.id)
  }

  function EffectName(effect: Effect): string {
    match effect
    case DispatchRun => "dispatch"
    case ReportOutcome => "outcome"
    case PublishTriage => "triage"
    case HandoffSummary => "handoff-summary"
    case MonitorDelivery => "delivery"
    case DeliveryOutcome => "delivery-outcome"
    case IssueStart => "issue-start"
  }

  function EntryKey(e: EntryId): string {
    EffectName(e.effect) + "/" + RunKey(e.run)
  }

  // --------------------------------------------------------------------------- splitting

  lemma LastSeparator(a: string, x: string, separator: char)
    requires separator !in x
    ensures var s := a + [separator] + x;
            s[|a|] == separator && forall i | |a| < i < |s| :: s[i] != separator
  {
    var s := a + [separator] + x;
    forall i | |a| < i < |s| ensures s[i] != separator { assert s[i] == x[i - |a| - 1]; }
  }

  lemma FirstSeparator(a: string, x: string, separator: char)
    requires separator !in a
    ensures var s := a + [separator] + x;
            s[|a|] == separator && forall i | 0 <= i < |a| :: s[i] != separator
  {
    var s := a + [separator] + x;
    forall i | 0 <= i < |a| ensures s[i] != separator { assert s[i] == a[i]; }
  }

  lemma SameSplit(a: string, x: string, b: string, y: string, separator: char)
    requires a + [separator] + x == b + [separator] + y && |a| == |b|
    ensures a == b && x == y
  {
    var s, t := a + [separator] + x, b + [separator] + y;
    assert s[..|a|] == a && t[..|b|] == b && s[|a| + 1..] == x && t[|b| + 1..] == y;
  }

  /** A text splits in one way at a separator its second part does not contain. */
  lemma SplitLast(a: string, x: string, b: string, y: string, separator: char)
    requires a + [separator] + x == b + [separator] + y && separator !in x && separator !in y
    ensures a == b && x == y
  {
    LastSeparator(a, x, separator);
    LastSeparator(b, y, separator);
    SameSplit(a, x, b, y, separator);
  }

  /** And at a separator its first part does not contain. */
  lemma SplitFirst(a: string, x: string, b: string, y: string, separator: char)
    requires a + [separator] + x == b + [separator] + y && separator !in a && separator !in b
    ensures a == b && x == y
  {
    FirstSeparator(a, x, separator);
    FirstSeparator(b, y, separator);
    SameSplit(a, x, b, y, separator);
  }

  // --------------------------------------------------------------------------- injectivity

  lemma {:induction false} DecimalInjective(a: nat, b: nat)
    requires Decimal(a) == Decimal(b)
    ensures a == b
  {
    assert '0' + (a % 10) as char == '0' + (b % 10) as char by {
      assert Decimal(a)[|Decimal(a)| - 1] == Decimal(b)[|Decimal(b)| - 1];
    }
    if 10 <= a && 10 <= b {
      assert Decimal(a / 10) == Decimal(a)[..|Decimal(a)| - 1];
      assert Decimal(b / 10) == Decimal(b)[..|Decimal(b)| - 1];
      DecimalInjective(a / 10, b / 10);
    }
  }

  lemma ColonMeansWork(id: TaskId)
    requires AcceptedId(id)
    ensures ':' in TaskKey(id) <==> id.Work?
  {
    if id.Work? { assert TaskKey(id)[4] == ':'; }
  }

  lemma TaskKeyInjective(a: TaskId, b: TaskId)
    requires AcceptedId(a) && AcceptedId(b) && TaskKey(a) == TaskKey(b)
    ensures a == b
  {
    ColonMeansWork(a);
    ColonMeansWork(b);
    if a.Github? && b.Github? {
      SplitLast(a.repo, Decimal(a.issue), b.repo, Decimal(b.issue), '#');
      DecimalInjective(a.issue, b.issue);
    } else if a.Work? && b.Work? {
      assert TaskKey(a)[5..] == a.workId && TaskKey(b)[5..] == b.workId;
    }
  }

  /** `<task key>/r<n>` names one run of one task. */
  lemma RunKeyInjective(a: RunId, b: RunId)
    requires AcceptedId(a.task) && AcceptedId(b.task) && RunKey(a) == RunKey(b)
    ensures a == b
  {
    SplitLast(TaskKey(a.task), "r" + Decimal(a.n), TaskKey(b.task), "r" + Decimal(b.n), '/');
    TaskKeyInjective(a.task, b.task);
    assert ("r" + Decimal(a.n))[1..] == Decimal(a.n) && ("r" + Decimal(b.n))[1..] == Decimal(b.n);
    DecimalInjective(a.n, b.n);
  }

  /** `<effect>/<run id>` names one effect of one run. */
  lemma EntryKeyInjective(a: EntryId, b: EntryId)
    requires AcceptedId(a.run.task) && AcceptedId(b.run.task) && EntryKey(a) == EntryKey(b)
    ensures a == b
  {
    SplitFirst(EffectName(a.effect), RunKey(a.run), EffectName(b.effect), RunKey(b.run), '/');
    RunKeyInjective(a.run, b.run);
  }

  /** A source uses its own shape of id; only a caller's text is arbitrary. */
  predicate AcceptedKey(k: RequestKey) {
    match k.source
    case Caller => k.id.Raw?
    case AutoRetry => k.id.RetryOf? && AcceptedId(k.id.run.task)
    case ProviderFallback => k.id.FallbackOf? && AcceptedId(k.id.run.task)
    case DeliveryCorrection => k.id.CorrectionOf? && AcceptedId(k.id.run.task)
  }

  function DependentPrefix(source: RequestSource): string {
    match source
    case Caller => ""
    case AutoRetry => "retry:"
    case ProviderFallback => "fallback:"
    case DeliveryCorrection => "delivery:"
  }

  /** The history key names one source and one id: a caller's text, even one spelled
      like a retry id, never meets an orchestrator-owned key. */
  lemma HistoryKeyInjective(a: RequestKey, b: RequestKey)
    requires AcceptedKey(a) && AcceptedKey(b) && a.task == b.task && HistoryKey(a) == HistoryKey(b)
    ensures a == b
  {
    SourceNameHasNoColon(a.source);
    SourceNameHasNoColon(b.source);
    SplitFirst(SourceName(a.source), RequestText(a.id), SourceName(b.source), RequestText(b.id), ':');
    SourceNameInjective(a.source, b.source);
    if !a.source.Caller? { DependentInjective(a, b); }
  }

  lemma SourceNameHasNoColon(source: RequestSource)
    ensures ':' !in SourceName(source)
  {
  }

  lemma SourceNameInjective(a: RequestSource, b: RequestSource)
    requires SourceName(a) == SourceName(b)
    ensures a == b
  {
    assert |SourceName(a)| == |SourceName(b)|;
  }

  lemma DependentInjective(a: RequestKey, b: RequestKey)
    requires AcceptedKey(a) && AcceptedKey(b) && a.task == b.task && a.source == b.source && !a.source.Caller?
    requires RequestText(a.id) == RequestText(b.id)
    ensures a == b
  {
    var n := |DependentPrefix(a.source)|;
    assert RequestText(a.id)[n..] == RunKey(a.id.run) && RequestText(b.id)[n..] == RunKey(b.id.run);
    RunKeyInjective(a.id.run, b.id.run);
  }

  // -------------------------------------------------------------- receipts and bindings

  /** The key of a revision's receipt. */
  function ReceiptKey(id: TaskId, revision: string): string {
    TaskKey(id) + ":" + revision
  }

  /** `<task key>:<revision key>` names one revision of one task, whatever its text. */
  lemma ReceiptKeyInjective(a: TaskId, x: string, b: TaskId, y: string)
    requires AcceptedId(a) && AcceptedId(b) && ReceiptKey(a, x) == ReceiptKey(b, y)
    ensures a == b && x == y
  {
    HeadOf(a, x);
    HeadOf(b, y);
    SplitFirst(Head(a), Tail(a, x), Head(b), Tail(b, y), ':');
    if a.Work? {
      SplitFirst(a.workId, x, b.workId, y, ':');
    } else {
      TaskKeyInjective(a, b);
    }
  }

  /** What comes before the first colon of a receipt key, and after it. */
  function Head(id: TaskId): string {
    if id.Work? then "work" else TaskKey(id)
  }

  function Tail(id: TaskId, text: string): string {
    if id.Work? then id.workId + ":" + text else text
  }

  lemma HeadOf(id: TaskId, text: string)
    requires AcceptedId(id)
    ensures ReceiptKey(id, text) == Head(id) + [':'] + Tail(id, text)
    ensures ':' !in Head(id) && ('#' in Head(id) <==> id.Github?)
  {
    ColonMeansWork(id);
    if id.Work? {
      assert "work:" + id.workId + ":" + text == "work" + [':'] + (id.workId + ":" + text);
    } else {
      assert TaskKey(id)[|id.repo|] == '#';
    }
  }

  /** How JSON writes one character of a string. */
  function Escape(c: char): (e: string)
    ensures e != []
  {
    if c == '"' then "\\\""
    else if c == '\\' then "\\\\"
    else if c == '\n' then "\\n"
    else if c == '\r' then "\\r"
    else if c == '\t' then "\\t"
    else if c as int == 8 then "\\b"
    else if c as int == 12 then "\\f"
    else if c < ' ' then "\\u00" + [Hex((c as int) / 16), Hex((c as int) % 16)]
    else [c]
  }

  function Hex(d: int): char
    requires 0 <= d < 16
  {
    "0123456789abcdef"[d]
  }

  function Escaped(text: string): string {
    if text == [] then [] else Escape(text[0]) + Escaped(text[1..])
  }

  /** The JSON of a pair of strings. */
  function PairKey(a: string, b: string): string {
    "[\"" + Escaped(a) + "\",\"" + Escaped(b) + "\"]"
  }

  /** Written as itself, or behind a backslash in two characters or six. */
  lemma EscapeShape(c: char)
    ensures |Escape(c)| in {1, 2, 6} && (|Escape(c)| > 1 <==> Escape(c)[0] == '\\')
    ensures |Escape(c)| == 1 ==> Escape(c)[0] == c
    ensures |Escape(c)| > 1 ==> (|Escape(c)| == 6 <==> Escape(c)[1] == 'u')
  {
  }

  lemma ShortInjective(c: char, d: char)
    requires |Escape(c)| == 2 && |Escape(d)| == 2 && Escape(c)[1] == Escape(d)[1]
    ensures c == d
  {
  }

  lemma LongInjective(c: char, d: char)
    requires |Escape(c)| == 6 && |Escape(d)| == 6 && Escape(c)[4] == Escape(d)[4] && Escape(c)[5] == Escape(d)[5]
    ensures c == d
  {
    HexInjective((c as int) / 16, (d as int) / 16);
    HexInjective((c as int) % 16, (d as int) % 16);
  }

  /** No character's writing begins another's. */
  lemma EscapeSplits(c: char, x: string, d: char, y: string)
    requires Escape(c) + x == Escape(d) + y
    ensures c == d && x == y
  {
    EscapeShape(c);
    EscapeShape(d);
    var s, t := Escape(c) + x, Escape(d) + y;
    assert forall i | 0 <= i < |Escape(c)| :: s[i] == Escape(c)[i];
    assert forall i | 0 <= i < |Escape(d)| :: t[i] == Escape(d)[i];
    assert s[0] == t[0];
    assert |Escape(c)| > 1 && |Escape(d)| > 1 ==> s[1] == t[1];
    if |Escape(c)| == 2 {
      ShortInjective(c, d);
    } else if |Escape(c)| == 6 {
      assert s[4] == t[4] && s[5] == t[5];
      LongInjective(c, d);
    }
    assert s[|Escape(c)|..] == x && t[|Escape(d)|..] == y;
  }

  lemma HexInjective(a: int, b: int)
    requires 0 <= a < 16 && 0 <= b < 16 && Hex(a) == Hex(b)
    ensures a == b
  {
  }

  lemma {:induction false} EscapedInjective(a: string, b: string)
    requires Escaped(a) == Escaped(b)
    ensures a == b
    decreases |a|
  {
    if a != [] && b != [] {
      EscapeSplits(a[0], Escaped(a[1..]), b[0], Escaped(b[1..]));
      EscapedInjective(a[1..], b[1..]);
      assert a == [a[0]] + a[1..] && b == [b[0]] + b[1..];
    }
  }

  lemma {:induction false} EscapedUnquoted(text: string)
    requires '"' !in text
    ensures '"' !in Escaped(text)
    decreases |text|
  {
    if text != [] {
      EscapedUnquoted(text[1..]);
      assert '"' !in Escape(text[0]);
    }
  }

  lemma TaskKeyUnquoted(id: TaskId)
    requires AcceptedId(id)
    ensures '"' !in Escaped(TaskKey(id))
  {
    assert '"' !in TaskKey(id);
    EscapedUnquoted(TaskKey(id));
  }

  /** What follows the first string of a pair. */
  function Rest(b: string): string {
    ",\"" + Escaped(b) + "\"]"
  }

  lemma RestInjective(a: string, b: string)
    requires Rest(a) == Rest(b)
    ensures a == b
  {
    assert Rest(a)[2..|Rest(a)| - 2] == Escaped(a) && Rest(b)[2..|Rest(b)| - 2] == Escaped(b);
    EscapedInjective(a, b);
  }

  lemma PairSplits(a: string, b: string)
    ensures PairKey(a, b) == "[\"" + (Escaped(a) + ['"'] + Rest(b))
  {
    assert "\",\"" == ['"'] + ",\"";
  }

  /** The JSON key of a binding names one binding of one task. */
  lemma BindingKeyInjective(a: TaskId, x: string, b: TaskId, y: string)
    requires AcceptedId(a) && AcceptedId(b) && PairKey(TaskKey(a), x) == PairKey(TaskKey(b), y)
    ensures a == b && x == y
  {
    PairSplits(TaskKey(a), x);
    PairSplits(TaskKey(b), y);
    var s, t := Escaped(TaskKey(a)) + ['"'] + Rest(x), Escaped(TaskKey(b)) + ['"'] + Rest(y);
    assert PairKey(TaskKey(a), x)[2..] == s && PairKey(TaskKey(b), y)[2..] == t;
    TaskKeyUnquoted(a);
    TaskKeyUnquoted(b);
    SplitFirst(Escaped(TaskKey(a)), Rest(x), Escaped(TaskKey(b)), Rest(y), '"');
    EscapedInjective(TaskKey(a), TaskKey(b));
    TaskKeyInjective(a, b);
    RestInjective(x, y);
  }

  /** So does the JSON key of a request, over every source and id. */
  lemma RequestKeyInjective(a: RequestKey, b: RequestKey)
    requires AcceptedId(a.task) && AcceptedId(b.task) && AcceptedKey(a) && AcceptedKey(b)
    requires PairKey(TaskKey(a.task), HistoryKey(a)) == PairKey(TaskKey(b.task), HistoryKey(b))
    ensures a == b
  {
    BindingKeyInjective(a.task, HistoryKey(a), b.task, HistoryKey(b));
    HistoryKeyInjective(a, b);
  }
}
