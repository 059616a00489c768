/** The command dispatcher and the note and reminder lists of the voice
    assistant. Speech recognition and text-to-speech are left out: what the
    assistant would say is returned as a list of lines. The regular-expression
    engine is a parameter `search` that plays `re.search(pattern, command)`:
    `None` when the pattern does not match, otherwise the match's groups, each
    `None` when its alternative did not take part in the match. The clock is a
    parameter too. */
module VoiceAssistant {

  import opened Wrappers
  import opened Text

  /** What `datetime.now()` gives: seconds for comparisons, ISO text for notes. */
  datatype Now = Now(seconds: int, iso: string)

  datatype Note = Note(timestamp: string, text: string)

  /** A reminder: due time in seconds and its text. */
  datatype Reminder = Reminder(time: int, text: string)

  /** The handlers of the command table, in table order. */
  datatype Handler =
    | GetTime | GetDate | GetWeather | Calculate | WebSearch | WikipediaSearch
    | PlayMusic | TakeNote | ReadNotes | SystemInfo | OpenApplication | OpenFile
    | VolumeControl | TakeScreenshot | SetReminder | ShowHelp

  /** The handlers declared without a default for their parameter; calling
      one of them with no argument raises `TypeError`. */
  predicate NeedsArgument(h: Handler)
  {
    h.Calculate? || h.WebSearch? || h.WikipediaSearch? || h.TakeNote?
    || h.OpenApplication? || h.OpenFile? || h.VolumeControl? || h.SetReminder?
  }

  type Groups = seq<Option<string>>

  /** `re.search(pattern, command)` abstracted to its groups. */
  type Matcher = (string, string) -> Option<Groups>

  const ExitWords: seq<string> := ["çık", "kapat", "durdur", "bitir"]

  /** `command_patterns`: a dict, so it is tried in insertion order. */
  const CommandPatterns: seq<(string, Handler)> := [
    ("saat\\s*kaç|saati\\s*söyle", GetTime),
    ("tarih\\s*ne|bugün\\s*ne", GetDate),
    ("hava\\s*durumu|hava\\s*nasıl", GetWeather),
    ("hesapla\\s*(.*)|matematik\\s*(.*)", Handler.Calculate),
    ("arama\\s*yap\\s*(.*)|google.*arama\\s*(.*)", WebSearch),
    ("wikipedia.*ara\\s*(.*)|vikipedi.*ara\\s*(.*)", WikipediaSearch),
    ("müzik\\s*aç|youtube.*müzik", PlayMusic),
    ("not\\s*al\\s*(.*)|kaydet\\s*(.*)", TakeNote),
    ("notları\\s*oku|notları\\s*göster", ReadNotes),
    ("sistem\\s*bilgisi|bilgisayar\\s*durumu", SystemInfo),
    ("uygulama\\s*aç\\s*(.*)|program\\s*aç\\s*(.*)", Handler.OpenApplication),
    ("dosya\\s*aç\\s*(.*)|klasör\\s*aç\\s*(.*)", OpenFile),
    ("ses\\s*seviyesi\\s*(.*)|volume\\s*(.*)", VolumeControl),
    ("ekran\\s*görüntüsü|screenshot", TakeScreenshot),
    ("hatırlatıcı\\s*kur\\s*(.*)|alarm\\s*kur\\s*(.*)", SetReminder),
    ("yardım|komutlar|neler\\s*yapabilirsin", ShowHelp)
  ]

  /** `command.strip().lower()`. */
  function Normalize(command: string): string
  {
    Lower(Strip(command))
  }

  /** Some exit word occurs in the (normalised) command. */
  predicate WantsExit(cmd: string)
  {
    exists i :: 0 <= i < |ExitWords| && Contains(cmd, ExitWords[i])
  }

  /** The first group that is present and non-empty. */
  function FirstNonEmptyGroup(groups: Groups): (r: Option<string>)
    ensures r.Some? ==> r.value != [] && Some(r.value) in groups
    ensures r.None? ==> forall g :: g in groups ==> g == None || g == Some("")
  {
    if groups == [] then None
    else if groups[0].Some? && groups[0].value != [] then groups[0]
    else assert groups == [groups[0]] + groups[1..]; FirstNonEmptyGroup(groups[1..])
  }

  /** The group picked is the first non-empty one: every group before it is
      absent or empty. */
  lemma {:induction false} FirstNonEmptyGroupIsFirst(groups: Groups)
    ensures FirstNonEmptyGroup(groups).Some? ==>
      exists k :: 0 <= k < |groups| && groups[k] == FirstNonEmptyGroup(groups)
        && forall j :: 0 <= j < k ==> groups[j] == None || groups[j] == Some("")
  {
    if groups != [] && !(groups[0].Some? && groups[0].value != []) {
      var rest := groups[1..];
      FirstNonEmptyGroupIsFirst(rest);
      if FirstNonEmptyGroup(rest).Some? {
        var k :| 0 <= k < |rest| && rest[k] == FirstNonEmptyGroup(rest)
                 && forall j :: 0 <= j < k ==> rest[j] == None || rest[j] == Some("");
        assert groups[k + 1] == rest[k];
        assert forall j :: 0 <= j < k + 1 ==> groups[j] == None || groups[j] == Some("") by {
          forall j | 0 <= j < k + 1 ensures groups[j] == None || groups[j] == Some("") {
            if j > 0 { assert groups[j] == rest[j - 1]; }
          }
        }
      }
    }
  }

  /** A non-empty group with only absent or empty groups before it is the
      one picked. */
  lemma {:induction false} FirstNonEmptyGroupAt(groups: Groups, k: nat)
    requires k < |groups| && groups[k].Some? && groups[k].value != []
    requires forall j :: 0 <= j < k ==> groups[j] == None || groups[j] == Some("")
    ensures FirstNonEmptyGroup(groups) == groups[k]
  {
    if k > 0 {
      assert groups[0] == None || groups[0] == Some("");
      assert forall j :: 0 <= j < k - 1 ==> groups[1..][j] == groups[j + 1];
      FirstNonEmptyGroupAt(groups[1..], k - 1);
    }
  }

  /** The argument passed to the handler: the first non-empty group,
      stripped; no argument at all when there is none or it strips to "". */
  function HandlerArgument(groups: Groups): (r: Option<string>)
    ensures (forall g :: g in groups ==> g == None || g == Some("")) ==> r.None?
    ensures r.Some? ==> (r.value != [] &&
      exists k :: 0 <= k < |groups| && groups[k].Some? && r.value == Strip(groups[k].value))
  {
    match FirstNonEmptyGroup(groups)
    case None => None
    case Some(g) => var p := Strip(g); if p == [] then None else Some(p)
  }

  /** The argument comes from the FIRST non-empty group: stripped, or no
      argument at all when that group strips to "". */
  lemma HandlerArgumentIsFirst(groups: Groups, k: nat)
    requires k < |groups| && groups[k].Some? && groups[k].value != []
    requires forall j :: 0 <= j < k ==> groups[j] == None || groups[j] == Some("")
    ensures HandlerArgument(groups) ==
            if Strip(groups[k].value) == [] then None else Some(Strip(groups[k].value))
  {
    FirstNonEmptyGroupAt(groups, k);
  }

  /** What `process_command` did with a command. */
  datatype Outcome =
    | Exit                                                        // returned False
    | Invoked(index: nat, handler: Handler, arg: Option<string>)  // handler ran, returned True
    | Failed(index: nat, handler: Handler)                        // handler raised, returned True
    | NotUnderstood                                               // no pattern matched, returned True

  /** The outcome of running the handler of table entry `index` with the
      groups of its match. */
  function Run(index: nat, handler: Handler, groups: Groups): Outcome
  {
    var arg := HandlerArgument(groups);
    if arg.None? && NeedsArgument(handler) then Failed(index, handler) else Invoked(index, handler, arg)
  }

  /** The scan of `table` from entry `from` on: the first entry whose
      pattern matches runs. */
  function FindHandler(table: seq<(string, Handler)>, cmd: string, search: Matcher, from: nat): Outcome
    decreases |table| - from
  {
    if from >= |table| then NotUnderstood
    else match search(table[from].0, cmd)
      case Some(groups) => Run(from, table[from].1, groups)
      case None => FindHandler(table, cmd, search, from + 1)
  }

  /** `process_command` as a function of the command and the matcher. */
  function Dispatch(command: string, search: Matcher): (o: Outcome)
    ensures o.Exit? <==> WantsExit(Normalize(command))
  {
    var cmd := Normalize(command);
    FindHandlerFirstMatch(CommandPatterns, cmd, search, 0);
    if WantsExit(cmd) then Exit else FindHandler(CommandPatterns, cmd, search, 0)
  }

  /** The loop of `process_command` over the pattern table: tries each
      pattern in order and runs the first one that matches. */
  method Lookup(table: seq<(string, Handler)>, cmd: string, search: Matcher) returns (outcome: Outcome)
    ensures outcome == FindHandler(table, cmd, search, 0)
    ensures !outcome.Exit?
    ensures outcome.Invoked? && NeedsArgument(outcome.handler) ==> outcome.arg.Some?
  {
    var i := 0;
    while i < |table|
      invariant 0 <= i <= |table|
      invariant FindHandler(table, cmd, search, i) == FindHandler(table, cmd, search, 0)
    {
      var m := search(table[i].0, cmd);
      if m.Some? {
        return Run(i, table[i].1, m.value);
      }
      i := i + 1;
    }
    return NotUnderstood;
  }

  /** The scan from `from` picks the first matching entry at or after `from`;
      when none matches, the command is not understood. */
  lemma {:induction false} FindHandlerFirstMatch(table: seq<(string, Handler)>, cmd: string, search: Matcher, from: nat)
    ensures var o := FindHandler(table, cmd, search, from);
      && (o.NotUnderstood? <==> forall j :: from <= j < |table| ==> search(table[j].0, cmd).None?)
      && (o.Invoked? || o.Failed? ==>
            && from <= o.index < |table|
            && o.handler == table[o.index].1
            && search(table[o.index].0, cmd).Some?
            && o == Run(o.index, o.handler, search(table[o.index].0, cmd).value)
            && forall j :: from <= j < o.index ==> search(table[j].0, cmd).None?)
      && !o.Exit?
    decreases |table| - from
  {
    if from < |table| {
      var m := search(table[from].0, cmd);
      if m.None? {
        assert FindHandler(table, cmd, search, from) == FindHandler(table, cmd, search, from + 1);
        FindHandlerFirstMatch(table, cmd, search, from + 1);
      } else {
        var o := Run(from, table[from].1, m.value);
        assert FindHandler(table, cmd, search, from) == o;
        assert o.index == from && o.handler == table[from].1;
      }
    }
  }

  /** The exit check comes first; otherwise only the first matching entry of
      the table runs, with the argument taken from its groups, and a handler
      that needs an argument but gets none fails. */
  lemma DispatchFirstMatch(command: string, search: Matcher)
    ensures var cmd, o := Normalize(command), Dispatch(command, search);
      && (o.Exit? <==> WantsExit(cmd))
      && (o.NotUnderstood? <==>
            !WantsExit(cmd) && forall j :: 0 <= j < |CommandPatterns| ==> search(CommandPatterns[j].0, cmd).None?)
      && (o.Invoked? || o.Failed? ==>
            && o.index < |CommandPatterns| && o.handler == CommandPatterns[o.index].1
            && search(CommandPatterns[o.index].0, cmd).Some?
            && forall j :: 0 <= j < o.index ==> search(CommandPatterns[j].0, cmd).None?)
      && (o.Invoked? ==> o.arg == HandlerArgument(search(CommandPatterns[o.index].0, cmd).value)
                         && (o.arg.None? ==> !NeedsArgument(o.handler)))
      && (o.Failed? ==> NeedsArgument(o.handler)
                        && HandlerArgument(search(CommandPatterns[o.index].0, cmd).value).None?)
  {
    FindHandlerFirstMatch(CommandPatterns, Normalize(command), search, 0);
  }

  lemma VolumeDownIsNormalized()
    ensures Normalize("ses seviyesi kapat") == "ses seviyesi kapat"
  {
    NormalizePlain("ses seviyesi kapat");
  }

  lemma VolumeDownHasExitWord()
    ensures WantsExit("ses seviyesi kapat")
  {
    var c := "ses seviyesi kapat";
    assert c[13..18] == ExitWords[1];
    assert OccursAt(c, ExitWords[1], 13);
  }

  /** "ses seviyesi kapat" contains the exit word "kapat", so the assistant
      quits instead of reaching the volume handler, whatever the matcher does. */
  lemma VolumeDownCommandExits(search: Matcher)
    ensures Dispatch("ses seviyesi kapat", search) == Exit
  {
    VolumeDownIsNormalized();
    VolumeDownHasExitWord();
  }

  // ---------------------------------------------------------------------
  // calculate
  // ---------------------------------------------------------------------

  const AllowedChars := "0123456789+-*/()., "

  /** `s.replace(pattern, replacement)`: every non-overlapping occurrence,
      scanning left to right. */
  function Replace(s: string, pattern: string, replacement: string): (r: string)
    requires pattern != []
    ensures replacement == pattern ==> r == s
    decreases |s|
  {
    if |s| < |pattern| then s
    else if s[..|pattern|] == pattern then replacement + Replace(s[|pattern|..], pattern, replacement)
    else [s[0]] + Replace(s[1..], pattern, replacement)
  }

  /** While no character of the replacement shows up, the output copies the
      input: a prefix of `Replace(s, …)` made only of pattern characters is
      the same prefix of `s`. */
  lemma {:induction false} ReplacePrefix(s: string, pattern: string, replacement: string, n: nat)
    requires pattern != [] && replacement != []
    requires forall c :: c in replacement ==> c !in pattern
    requires n <= |Replace(s, pattern, replacement)|
    ensures (forall i :: 0 <= i < n ==> Replace(s, pattern, replacement)[i] in pattern)
            ==> n <= |s| && Replace(s, pattern, replacement)[..n] == s[..n]
    decreases |s|
  {
    var r := Replace(s, pattern, replacement);
    if |s| >= |pattern| && n > 0 {
      if s[..|pattern|] == pattern {
        assert r[0] == replacement[0] && replacement[0] in replacement;
      } else {
        var rest := Replace(s[1..], pattern, replacement);
        assert r == [s[0]] + rest;
        assert forall i :: 0 <= i < n - 1 ==> rest[i] == r[i + 1];
        ReplacePrefix(s[1..], pattern, replacement, n - 1);
        assert r[..n] == [s[0]] + rest[..n - 1];
      }
    }
  }

  /** An occurrence that starts after `lead` is an occurrence in `tail`. */
  lemma OccursPastLead(lead: string, tail: string, pattern: string, i: nat)
    requires |lead| <= i
    ensures OccursAt(lead + tail, pattern, i) ==> OccursAt(tail, pattern, i - |lead|)
  {
    if OccursAt(lead + tail, pattern, i) {
      var r, j := lead + tail, i - |lead|;
      assert r[|lead|..] == tail;
      assert r[i..i + |pattern|] == r[|lead|..][j..j + |pattern|];
    }
  }

  /** No occurrence starts inside a `lead` made of non-pattern characters. */
  lemma NoOccurrenceInLead(lead: string, tail: string, pattern: string, i: nat)
    requires pattern != [] && i < |lead|
    requires forall c :: c in lead ==> c !in pattern
    ensures !OccursAt(lead + tail, pattern, i)
  {
    var r := lead + tail;
    if i + |pattern| <= |r| {
      assert r[i..i + |pattern|][0] == lead[i] && lead[i] in lead;
      assert pattern[0] in pattern;
    }
  }

  /** With a non-empty replacement that shares no character with the
      pattern, every occurrence is replaced: the pattern no longer occurs. */
  lemma {:induction false} ReplaceRemovesAll(s: string, pattern: string, replacement: string)
    requires pattern != [] && replacement != []
    requires forall c :: c in replacement ==> c !in pattern
    ensures !Contains(Replace(s, pattern, replacement), pattern)
    decreases |s|
  {
    var r := Replace(s, pattern, replacement);
    if |s| >= |pattern| {
      var starts := s[..|pattern|] == pattern;
      var rest := if starts then s[|pattern|..] else s[1..];
      var lead := if starts then replacement else [s[0]];
      var tail := Replace(rest, pattern, replacement);
      ReplaceRemovesAll(rest, pattern, replacement);
      assert r == lead + tail;
      forall i | 0 <= i <= |r| ensures !OccursAt(r, pattern, i) {
        if i + |pattern| <= |r| {
          if i >= |lead| {
            OccursPastLead(lead, tail, pattern, i);
          } else if starts {
            NoOccurrenceInLead(lead, tail, pattern, i);
          } else {
            ReplacePrefix(s, pattern, replacement, |pattern|);
            assert forall k :: 0 <= k < |pattern| ==> pattern[k] in pattern;
          }
        }
      }
    }
  }

  /** A pattern holding a character that `s` never uses cannot occur in `s`,
      so replacing it changes nothing. */
  lemma {:induction false} ReplaceAbsent(s: string, pattern: string, replacement: string, k: nat)
    requires k < |pattern| && pattern[k] !in s
    ensures Replace(s, pattern, replacement) == s
    decreases |s|
  {
    if |s| >= |pattern| {
      assert s[k] in s;
      assert s[..|pattern|] != pattern by { assert s[..|pattern|][k] == s[k]; }
      ReplaceAbsent(s[1..], pattern, replacement, k);
      assert [s[0]] + s[1..] == s;
    }
  }

  /** Replacing a word that starts with a refused character leaves a
      whitelisted text unchanged. */
  lemma ReplaceWhitelisted(s: string, pattern: string, replacement: string)
    requires pattern != [] && pattern[0] !in AllowedChars
    ensures (forall c :: c in s ==> c in AllowedChars) ==> Replace(s, pattern, replacement) == s
  {
    if forall c :: c in s ==> c in AllowedChars {
      ReplaceAbsent(s, pattern, replacement, 0);
    }
  }

  /** The spoken Turkish operator words, replaced in this order. Each word
      holds a character the whitelist refuses, so a whitelisted expression
      comes out unchanged. */
  function SpokenOperators(e: string): (r: string)
    ensures (forall c :: c in e ==> c in AllowedChars) ==> r == e
  {
    assert 'ç' !in AllowedChars && 'b' !in AllowedChars && 'a' !in AllowedChars;
    assert 'e' !in AllowedChars && 'k' !in AllowedChars;
    ReplaceWhitelisted(e, "çarpı", "*");
    ReplaceWhitelisted(e, "bölü", "/");
    ReplaceWhitelisted(e, "artı", "+");
    ReplaceWhitelisted(e, "eksi", "-");
    ReplaceWhitelisted(e, "kere", "*");
    Replace(Replace(Replace(Replace(Replace(e, "çarpı", "*"), "bölü", "/"), "artı", "+"), "eksi", "-"),
            "kere", "*")
  }

  datatype CalcOutcome = Rejected | Evaluate(expression: string)

  /** `calculate` up to the call of `eval`: the whitelist check, then the
      operator-word replacements. */
  function Calculate(expression: string): (r: CalcOutcome)
    ensures r.Rejected? <==> exists i :: 0 <= i < |expression| && expression[i] !in AllowedChars
    ensures r.Evaluate? ==> r.expression == expression
  {
    if forall c :: c in expression ==> c in AllowedChars then Evaluate(SpokenOperators(expression))
    else Rejected
  }

  // ---------------------------------------------------------------------
  // open_application
  // ---------------------------------------------------------------------

  const Apps: map<string, string> := map[
    "safari" := "Safari", "chrome" := "Google Chrome", "firefox" := "Firefox",
    "calculator" := "Calculator", "hesap makinesi" := "Calculator",
    "finder" := "Finder", "terminal" := "Terminal", "konsol" := "Terminal",
    "notes" := "Notes", "notlar" := "Notes", "music" := "Music", "müzik" := "Music"]

  /** The application `open -a` is run with, and what is said. */
  datatype Launch = Launch(application: string, said: string)

  /** `open_application`: lower-case and strip the name, then map a known
      alias to its application or use the normalised name itself. */
  function OpenApplication(appName: string): (r: Launch)
    ensures var n := Strip(Lower(appName));
      && (n in Apps ==> r.application == Apps[n])
      && (n !in Apps ==> r.application == n)
      && r.said == r.application + " açılıyor."
  {
    var n := Strip(Lower(appName));
    var app := if n in Apps then Apps[n] else n;
    Launch(app, app + " açılıyor.")
  }

  lemma CalculatorAliasIsNormalized()
    ensures Strip(Lower("hesap makinesi")) == "hesap makinesi"
  {
    NormalizePlain("hesap makinesi");
  }

  lemma CalculatorInApps()
    ensures "hesap makinesi" in Apps && Apps["hesap makinesi"] == "Calculator"
  {
  }

  /** The spoken alias "hesap makinesi" opens the Calculator application. */
  lemma CalculatorAlias()
    ensures OpenApplication("hesap makinesi").application == "Calculator"
  {
    CalculatorAliasIsNormalized();
    CalculatorInApps();
  }

  // ---------------------------------------------------------------------
  // Reminders
  // ---------------------------------------------------------------------

  /** Reminders that `check_reminders` at time `now` keeps. */
  function Pending(rs: seq<Reminder>, now: int): seq<Reminder>
  {
    if rs == [] then []
    else (if now >= rs[0].time then [] else [rs[0]]) + Pending(rs[1..], now)
  }

  /** Reminders that are due at time `now`, in list order. */
  function Due(rs: seq<Reminder>, now: int): seq<Reminder>
  {
    if rs == [] then []
    else (if now >= rs[0].time then [rs[0]] else []) + Due(rs[1..], now)
  }

  lemma {:induction false} PendingAppend(a: seq<Reminder>, b: seq<Reminder>, now: int)
    ensures Pending(a + b, now) == Pending(a, now) + Pending(b, now)
    ensures Due(a + b, now) == Due(a, now) + Due(b, now)
  {
    if a == [] {
      assert a + b == b;
    } else {
      var ab := a + b;
      assert ab[0] == a[0];
      assert ab[1..] == a[1..] + b;
      PendingAppend(a[1..], b, now);
      var keep := if now >= a[0].time then [] else [a[0]];
      var due := if now >= a[0].time then [a[0]] else [];
      calc {
        Pending(ab, now);
        keep + Pending(ab[1..], now);
        keep + (Pending(a[1..], now) + Pending(b, now));
        (keep + Pending(a[1..], now)) + Pending(b, now);
      }
      calc {
        Due(ab, now);
        due + Due(ab[1..], now);
        due + (Due(a[1..], now) + Due(b, now));
        (due + Due(a[1..], now)) + Due(b, now);
      }
    }
  }

  /** The kept reminders are not yet due; the announced ones are. */
  lemma {:induction false} PendingNotDue(rs: seq<Reminder>, now: int)
    ensures forall x :: x in Pending(rs, now) ==> now < x.time
    ensures forall x :: x in Due(rs, now) ==> now >= x.time
  {
    if rs != [] {
      PendingNotDue(rs[1..], now);
    }
  }

  /** Every reminder is either kept or announced, never both. */
  lemma {:induction false} PendingDuePartition(rs: seq<Reminder>, now: int)
    ensures multiset(Pending(rs, now)) + multiset(Due(rs, now)) == multiset(rs)
  {
    if rs != [] {
      PendingDuePartition(rs[1..], now);
      assert rs == [rs[0]] + rs[1..];
    }
  }

  /** A second check at the same time keeps the same reminders and
      announces nothing. */
  lemma {:induction false} CheckRemindersIdempotent(rs: seq<Reminder>, now: int)
    ensures Pending(Pending(rs, now), now) == Pending(rs, now)
    ensures Due(Pending(rs, now), now) == []
  {
    if rs != [] {
      CheckRemindersIdempotent(rs[1..], now);
      if now < rs[0].time {
        assert Pending(rs, now) == [rs[0]] + Pending(rs[1..], now);
        PendingAppend([rs[0]], Pending(rs[1..], now), now);
        assert Pending([rs[0]], now) == [rs[0]] + Pending([], now);
        assert Due([rs[0]], now) == Due([], now);
      } else {
        assert Pending(rs, now) == Pending(rs[1..], now);
      }
    }
  }

  /** `list.remove(x)`: drop the first element equal to `x`. */
  function RemoveFirst(s: seq<Reminder>, x: Reminder): (r: seq<Reminder>)
    requires x in s
    ensures |r| == |s| - 1
  {
    assert s == [s[0]] + s[1..];
    if s[0] == x then s[1..] else [s[0]] + RemoveFirst(s[1..], x)
  }

  /** `list.remove(x)` takes away one occurrence of `x` and nothing else. */
  lemma {:induction false} RemoveFirstMultiset(s: seq<Reminder>, x: Reminder)
    requires x in s
    ensures multiset(RemoveFirst(s, x)) == multiset(s) - multiset{x}
  {
    assert s == [s[0]] + s[1..];
    if s[0] != x {
      RemoveFirstMultiset(s[1..], x);
    }
  }

  /** Removing a due reminder from "kept so far" + "still to visit" removes
      the one at the head of "still to visit": no kept reminder equals it. */
  lemma {:induction false} RemoveFirstSkipsKept(kept: seq<Reminder>, rest: seq<Reminder>, now: int)
    requires rest != [] && now >= rest[0].time
    requires forall x :: x in kept ==> now < x.time
    ensures rest[0] in kept + rest
    ensures RemoveFirst(kept + rest, rest[0]) == kept + rest[1..]
  {
    var s := kept + rest;
    if kept != [] {
      assert s[0] == kept[0] && s[1..] == kept[1..] + rest;
      assert kept[0] in kept;
      assert s[0] != rest[0];
      RemoveFirstSkipsKept(kept[1..], rest, now);
      assert RemoveFirst(s, rest[0]) == [s[0]] + RemoveFirst(s[1..], rest[0]);
      assert [kept[0]] + (kept[1..] + rest[1..]) == kept + rest[1..];
    } else {
      assert s == rest && rest[0] in rest;
    }
  }

  function Announcements(rs: seq<Reminder>): (r: seq<string>)
    ensures |r| == |rs| && forall i :: 0 <= i < |rs| ==> r[i] == "Hatırlatma: " + rs[i].text
  {
    if rs == [] then [] else ["Hatırlatma: " + rs[0].text] + Announcements(rs[1..])
  }

  lemma AnnouncementsAppend(rs: seq<Reminder>, r: Reminder)
    ensures Announcements(rs + [r]) == Announcements(rs) + ["Hatırlatma: " + r.text]
  {
  }

  /** One iteration of the `check_reminders` loop on the live list: visiting
      `copy[i]` removes it exactly when it is due. */
  lemma CheckStepKept(copy: seq<Reminder>, i: nat, now: int)
    requires i < |copy|
    ensures now >= copy[i].time ==> copy[i] in Pending(copy[..i], now) + copy[i..]
    ensures Pending(copy[..i + 1], now) + copy[i + 1..] ==
            if now >= copy[i].time then RemoveFirst(Pending(copy[..i], now) + copy[i..], copy[i])
            else Pending(copy[..i], now) + copy[i..]
  {
    var r := copy[i];
    var kept := Pending(copy[..i], now);
    PendingNotDue(copy[..i], now);
    assert copy[..i + 1] == copy[..i] + [r];
    assert copy[i..] == [r] + copy[i + 1..];
    PendingAppend(copy[..i], [r], now);
    assert Pending([r], now) == (if now >= r.time then [] else [r]) + Pending([], now);
    if now >= r.time {
      assert Pending(copy[..i + 1], now) == kept;
      RemoveFirstSkipsKept(kept, copy[i..], now);
    } else {
      assert Pending(copy[..i + 1], now) == kept + [r];
      assert kept + [r] + copy[i + 1..] == kept + copy[i..];
    }
  }

  /** One iteration of the `check_reminders` loop on what is said: a due
      reminder adds its line at the end. */
  lemma CheckStepAnnounced(copy: seq<Reminder>, i: nat, now: int)
    requires i < |copy|
    ensures Announcements(Due(copy[..i + 1], now)) ==
            Announcements(Due(copy[..i], now)) + if now >= copy[i].time then ["Hatırlatma: " + copy[i].text] else []
  {
    var r := copy[i];
    assert copy[..i + 1] == copy[..i] + [r];
    PendingAppend(copy[..i], [r], now);
    assert Due([r], now) == (if now >= r.time then [r] else []) + Due([], now);
    if now >= r.time {
      AnnouncementsAppend(Due(copy[..i], now), r);
    } else {
      assert Due(copy[..i + 1], now) == Due(copy[..i], now);
    }
  }

  class Assistant {
    var notes: seq<Note>
    var reminders: seq<Reminder>

    /** `__init__`, with the notes `load_notes` read from disk. */
    constructor (loaded: seq<Note>)
      ensures notes == loaded && reminders == []
    {
      notes := loaded;
      reminders := [];
    }

    /** `take_note`: appends one note at the end. */
    method TakeNote(text: string, now: Now)
      modifies this`notes
      ensures notes == old(notes) + [Note(now.iso, text)]
    {
      notes := notes + [Note(now.iso, text)];
    }

    /** `set_reminder`: appends one reminder due five minutes from now. */
    method SetReminder(text: string, now: Now)
      modifies this`reminders
      ensures reminders == old(reminders) + [Reminder(now.seconds + 5 * 60, text)]
    {
      reminders := reminders + [Reminder(now.seconds + 5 * 60, text)];
    }

    /** `read_notes`: "no notes", or the count followed by the last five
        notes numbered from 1. */
    method ReadNotes() returns (said: seq<string>)
      ensures notes == [] ==> said == ["Hiç not yok."]
      ensures notes != [] ==> |said| == 1 + (if |notes| < 5 then |notes| else 5)
      ensures notes != [] ==> said[0] == "Toplam " + IntToString(|notes|) + " notunuz var."
      ensures notes != [] ==> forall i :: 0 < i < |said| ==>
                said[i] == "Not " + IntToString(i) + ": " + notes[|notes| - (|said| - 1) + (i - 1)].text
    {
      if notes == [] {
        return ["Hiç not yok."];
      }
      said := ["Toplam " + IntToString(|notes|) + " notunuz var."];
      var recent := if |notes| > 5 then notes[|notes| - 5..] else notes;
      var i := 0;
      while i < |recent|
        invariant 0 <= i <= |recent|
        invariant |said| == 1 + i
        invariant said[0] == "Toplam " + IntToString(|notes|) + " notunuz var."
        invariant forall j :: 0 < j <= i ==> said[j] == "Not " + IntToString(j) + ": " + recent[j - 1].text
      {
        said := said + ["Not " + IntToString(i + 1) + ": " + recent[i].text];
        i := i + 1;
      }
    }

    /** `check_reminders`: walks a copy of the list, announcing and removing
        each reminder that is due; the others stay, in their order. */
    method CheckReminders(now: int) returns (said: seq<string>)
      modifies this`reminders
      ensures reminders == Pending(old(reminders), now)
      ensures said == Announcements(Due(old(reminders), now))
    {
      var copy := reminders;
      said := [];
      var i := 0;
      while i < |copy|
        invariant 0 <= i <= |copy|
        invariant reminders == Pending(copy[..i], now) + copy[i..]
        invariant said == Announcements(Due(copy[..i], now))
      {
        var r := copy[i];
        ghost var nextKept := Pending(copy[..i + 1], now) + copy[i + 1..];
        ghost var nextSaid := Announcements(Due(copy[..i + 1], now));
        CheckStepKept(copy, i, now);
        CheckStepAnnounced(copy, i, now);
        if now >= r.time {
          said := said + ["Hatırlatma: " + r.text];
          reminders := RemoveFirst(reminders, r);
        }
        assert reminders == nextKept && said == nextSaid;
        i := i + 1;
      }
      assert copy[..i] == copy;
    }

    /** `process_command`: the exit check, then the first matching entry of
        the table. Note and reminder handlers change the lists; the other
        handlers act only on the outside world. */
    method ProcessCommand(command: string, search: Matcher, now: Now)
      returns (keepListening: bool, outcome: Outcome)
      modifies this
      ensures outcome == Dispatch(command, search)
      ensures keepListening <==> !outcome.Exit?
      ensures outcome.Invoked? && NeedsArgument(outcome.handler) ==> outcome.arg.Some?
      ensures notes == if outcome.Invoked? && outcome.handler.TakeNote?
                       then old(notes) + [Note(now.iso, outcome.arg.value)] else old(notes)
      ensures reminders == if outcome.Invoked? && outcome.handler.SetReminder?
                           then old(reminders) + [Reminder(now.seconds + 5 * 60, outcome.arg.value)]
                           else old(reminders)
    {
      var cmd := Normalize(command);
      if WantsExit(cmd) {
        return false, Exit;
      }
      outcome := Lookup(CommandPatterns, cmd, search);
      if outcome.Invoked? && outcome.handler.TakeNote? {
        TakeNote(outcome.arg.value, now);
      } else if outcome.Invoked? && outcome.handler.SetReminder? {
        SetReminder(outcome.arg.value, now);
      }
      keepListening := true;
    }
  }
}
