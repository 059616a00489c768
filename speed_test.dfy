/** The scoring, activity guide, testing flag and history bookkeeping of the
    speed-test desktop tool. Speeds are in Mbps and ping in ms, as exact reals. */
module SpeedTest {

  import opened Wrappers

  /** One scored measurement: `band` is the position (0 = first) of the branch
      of the if/elif chain that matched, `score` its points and `rating` its label. */
  datatype Component = Component(band: nat, score: real, rating: string)

  /** One section of the analysis text: a heading and its lines. The verdict
      section has an empty heading. */
  datatype Section = Section(heading: string, lines: seq<string>)

  /** A finished measurement as handed to `update_results`; `isp` is absent
      when the client record has no "isp" key. */
  datatype TestData = TestData(timestamp: string, download: real, upload: real, ping: real,
                               jitter: real, isp: Option<string>)

  /** A row of `test_history`. */
  datatype HistoryEntry = HistoryEntry(timestamp: string, download: real, upload: real,
                                       ping: real, jitter: real, score: int, isp: string)

  /** Python's `int(x)`: truncation toward zero. */
  function Trunc(x: real): (r: int)
    ensures 0.0 <= x ==> 0 <= r && r as real <= x < r as real + 1.0
    ensures x < 0.0 ==> r <= 0 && r as real - 1.0 < x <= r as real
  {
    if x >= 0.0 then x.Floor else -((-x).Floor)
  }

  // ---------------------------------------------------------------------
  // analyze_results: banded scores
  // ---------------------------------------------------------------------

  /** Download points (at most 40), the first matching band checked top-down. */
  function DownloadComponent(download: real): (c: Component)
    ensures c.band <= 4
    ensures c.band == 0 <==> download >= 100.0
    ensures c.band == 1 <==> 50.0 <= download < 100.0
    ensures c.band == 2 <==> 25.0 <= download < 50.0
    ensures c.band == 3 <==> 10.0 <= download < 25.0
    ensures c.band == 0 ==> c.score == 40.0
    ensures c.band == 1 ==> 30.0 <= c.score < 40.0
    ensures c.band == 2 ==> 20.0 <= c.score < 30.0
    ensures c.band == 3 ==> 10.0 <= c.score < 20.05
    ensures c.band == 4 ==> c.score == download
    ensures c.rating == ["Mükemmel", "Çok İyi", "İyi", "Orta", "Düşük"][c.band]
    ensures c.score <= 40.0
    ensures 0.0 <= download ==> 0.0 <= c.score
  {
    if download >= 100.0 then Component(0, 40.0, "Mükemmel")
    else if download >= 50.0 then Component(1, 30.0 + (download - 50.0) * 0.2, "Çok İyi")
    else if download >= 25.0 then Component(2, 20.0 + (download - 25.0) * 0.4, "İyi")
    else if download >= 10.0 then Component(3, 10.0 + (download - 10.0) * 0.67, "Orta")
    else Component(4, download * 1.0, "Düşük")
  }

  /** Upload points (at most 30), the first matching band checked top-down. */
  function UploadComponent(upload: real): (c: Component)
    ensures c.band <= 4
    ensures c.band == 0 <==> upload >= 50.0
    ensures c.band == 1 <==> 25.0 <= upload < 50.0
    ensures c.band == 2 <==> 10.0 <= upload < 25.0
    ensures c.band == 3 <==> 5.0 <= upload < 10.0
    ensures c.band == 0 ==> c.score == 30.0
    ensures c.band == 1 ==> 20.0 <= c.score < 30.0
    ensures c.band == 2 ==> 10.0 <= c.score < 20.05
    ensures c.band == 3 ==> 5.0 <= c.score < 10.0
    ensures c.band == 4 ==> c.score == upload
    ensures c.rating == ["Mükemmel", "Çok İyi", "İyi", "Orta", "Düşük"][c.band]
    ensures c.score <= 30.0
    ensures 0.0 <= upload ==> 0.0 <= c.score
  {
    if upload >= 50.0 then Component(0, 30.0, "Mükemmel")
    else if upload >= 25.0 then Component(1, 20.0 + (upload - 25.0) * 0.4, "Çok İyi")
    else if upload >= 10.0 then Component(2, 10.0 + (upload - 10.0) * 0.67, "İyi")
    else if upload >= 5.0 then Component(3, 5.0 + (upload - 5.0) * 1.0, "Orta")
    else Component(4, upload * 1.0, "Düşük")
  }

  /** Ping points (0 to 30), the first matching band checked top-down. */
  function PingComponent(ping: real): (c: Component)
    ensures c.band <= 4
    ensures c.band == 0 <==> ping <= 20.0
    ensures c.band == 1 <==> 20.0 < ping <= 50.0
    ensures c.band == 2 <==> 50.0 < ping <= 100.0
    ensures c.band == 3 <==> 100.0 < ping <= 200.0
    ensures c.band == 0 ==> c.score == 30.0
    ensures c.band == 1 ==> 20.0 <= c.score < 29.9
    ensures c.band == 2 ==> 10.0 <= c.score < 20.0
    ensures c.band == 3 ==> 5.0 <= c.score < 10.0
    ensures c.band == 4 ==> c.score == 0.0
    ensures c.rating == ["Mükemmel", "İyi", "Orta", "Yavaş", "Çok Yavaş"][c.band]
    ensures 0.0 <= c.score <= 30.0
  {
    if ping <= 20.0 then Component(0, 30.0, "Mükemmel")
    else if ping <= 50.0 then Component(1, 20.0 + (50.0 - ping) * 0.33, "İyi")
    else if ping <= 100.0 then Component(2, 10.0 + (100.0 - ping) * 0.2, "Orta")
    else if ping <= 200.0 then Component(3, 5.0 + (200.0 - ping) * 0.05, "Yavaş")
    else Component(4, 0.0, "Çok Yavaş")
  }

  /** A faster download never lands in a worse band; likewise upload. */
  lemma SpeedBandsMonotone(x: real, y: real)
    requires x <= y
    ensures DownloadComponent(y).band <= DownloadComponent(x).band
    ensures UploadComponent(y).band <= UploadComponent(x).band
  {
  }

  /** The 0.67 slope of the third download and upload bands overshoots the
      20 points where the next band starts, so a slightly faster connection
      can earn fewer points: 24.99 Mbps earns 20.0433 while 25 Mbps earns 20. */
  lemma PointsDropAt25()
    ensures DownloadComponent(24.99).score > DownloadComponent(25.0).score
    ensures UploadComponent(24.99).score > UploadComponent(25.0).score
    ensures DownloadComponent(24.99).score == 20.0433
  {
  }

  /** A higher ping never earns more points nor a better band. */
  lemma PingScoreAntitone(p: real, q: real)
    requires p <= q
    ensures PingComponent(q).score <= PingComponent(p).score
    ensures PingComponent(p).band <= PingComponent(q).band
  {
  }

  /** The three component scores added up, before truncation and clamping. */
  function RawScore(download: real, upload: real, ping: real): real
  {
    DownloadComponent(download).score + UploadComponent(upload).score + PingComponent(ping).score
  }

  /** The overall score: `min(100, max(0, int(raw)))`. */
  function Score(download: real, upload: real, ping: real): (s: int)
    ensures 0 <= s <= 100
    ensures s == 100 <==> RawScore(download, upload, ping) >= 100.0
    ensures s == 0 <==> RawScore(download, upload, ping) < 1.0
  {
    var t := Trunc(RawScore(download, upload, ping));
    if t > 100 then 100 else if t < 0 then 0 else t
  }

  /** For measured (non-negative) speeds and ping the clamp never acts: the
      three maxima add up to exactly 100, so the score is the truncated sum. */
  lemma ClampInactiveForMeasurements(download: real, upload: real, ping: real)
    requires 0.0 <= download && 0.0 <= upload && 0.0 <= ping
    ensures 0.0 <= RawScore(download, upload, ping) <= 100.0
    ensures Score(download, upload, ping) == Trunc(RawScore(download, upload, ping))
  {
  }

  /** The top score needs all three components in their top band. */
  lemma FullScoreNeedsTopBands(download: real, upload: real, ping: real)
    requires 0.0 <= download && 0.0 <= upload && 0.0 <= ping
    requires Score(download, upload, ping) == 100
    ensures DownloadComponent(download).band == 0
    ensures UploadComponent(upload).band == 0
    ensures PingComponent(ping).band == 0
  {
  }

  // ---------------------------------------------------------------------
  // analyze_results: verdict and suggestions
  // ---------------------------------------------------------------------

  const VerdictExcellent := "🏆 Mükemmel bağlantı! Tüm online aktiviteler için idealdir."
  const VerdictVeryGood := "✅ Çok iyi bağlantı! Çoğu aktivite için uygun."
  const VerdictGood := "👍 İyi bağlantı! Günlük kullanım için yeterli."
  const VerdictFair := "⚠️ Orta bağlantı! Bazı aktivitelerde yavaşlık yaşayabilirsiniz."
  const VerdictWeak := "❌ Zayıf bağlantı! Hız iyileştirmesi gerekebilir."

  /** The verdict line, picked by the thresholds 90 / 75 / 60 / 40 in that order. */
  function Verdict(score: int): (v: string)
    ensures v == VerdictExcellent <==> score >= 90
    ensures v == VerdictVeryGood <==> 75 <= score < 90
    ensures v == VerdictGood <==> 60 <= score < 75
    ensures v == VerdictFair <==> 40 <= score < 60
    ensures v == VerdictWeak <==> score < 40
  {
    if score >= 90 then VerdictExcellent
    else if score >= 75 then VerdictVeryGood
    else if score >= 60 then VerdictGood
    else if score >= 40 then VerdictFair
    else VerdictWeak
  }

  const SuggestDownload := "• Daha yüksek hızlı bir internet paketi düşünebilirsiniz"
  const SuggestUpload := "• Video konferans ve dosya yükleme için yükleme hızınız düşük"
  const SuggestPing := "• Online oyunlar için ping süreniz yüksek"

  /** Position of a suggestion in the order the source checks them. */
  function SuggestionRank(s: string): nat
  {
    if s == SuggestDownload then 0 else if s == SuggestUpload then 1 else 2
  }

  /** Each suggestion is present exactly when its condition holds, and they
      appear in the order download, upload, ping. */
  function Suggestions(download: real, upload: real, ping: real): (r: seq<string>)
    ensures SuggestDownload in r <==> download < 25.0
    ensures SuggestUpload in r <==> upload < 5.0
    ensures SuggestPing in r <==> ping > 100.0
    ensures forall s :: s in r ==> s == SuggestDownload || s == SuggestUpload || s == SuggestPing
    ensures forall i, j :: 0 <= i < j < |r| ==> SuggestionRank(r[i]) < SuggestionRank(r[j])
  {
    (if download < 25.0 then [SuggestDownload] else [])
    + (if upload < 5.0 then [SuggestUpload] else [])
    + (if ping > 100.0 then [SuggestPing] else [])
  }

  // ---------------------------------------------------------------------
  // get_activity_guide
  // ---------------------------------------------------------------------

  const Video4K := "✅ 4K video izleme"
  const VideoFullHD := "✅ Full HD video izleme"
  const VideoHD := "✅ HD video izleme"
  const VideoStandard := "⚠️ Standart kalite video izleme"
  const UploadLive := "✅ Canlı yayın yapma"
  const UploadConference := "✅ Video konferans"
  const UploadVoice := "⚠️ Sesli arama"
  const PingGaming := "✅ Online oyun oynama"
  const PingStrategy := "⚠️ Strateji oyunları"
  const PingHard := "❌ Hızlı online oyunlar zor"
  const RemoteWork := "✅ Uzaktan çalışma"

  /** Always one video line, one upload line and one ping line, in that
      order; a fourth line for remote work exactly when download >= 50 and
      upload >= 10. */
  function ActivityGuide(download: real, upload: real, ping: real): (r: seq<string>)
    ensures |r| == 3 || |r| == 4
    ensures |r| == 4 <==> download >= 50.0 && upload >= 10.0
    ensures |r| == 4 ==> r[3] == RemoteWork
    ensures r[0] == Video4K <==> download >= 25.0
    ensures r[0] == VideoFullHD <==> 15.0 <= download < 25.0
    ensures r[0] == VideoHD <==> 5.0 <= download < 15.0
    ensures r[0] == VideoStandard <==> download < 5.0
    ensures r[1] == UploadLive <==> upload >= 10.0
    ensures r[1] == UploadConference <==> 5.0 <= upload < 10.0
    ensures r[1] == UploadVoice <==> upload < 5.0
    ensures r[2] == PingGaming <==> ping <= 50.0
    ensures r[2] == PingStrategy <==> 50.0 < ping <= 100.0
    ensures r[2] == PingHard <==> ping > 100.0
  {
    var video :=
      if download >= 25.0 then Video4K
      else if download >= 15.0 then VideoFullHD
      else if download >= 5.0 then VideoHD
      else VideoStandard;
    var up :=
      if upload >= 10.0 then UploadLive
      else if upload >= 5.0 then UploadConference
      else UploadVoice;
    var pg :=
      if ping <= 50.0 then PingGaming
      else if ping <= 100.0 then PingStrategy
      else PingHard;
    [video, up, pg] + (if download >= 50.0 && upload >= 10.0 then [RemoteWork] else [])
  }

  // ---------------------------------------------------------------------
  // analyze_results: the whole analysis
  // ---------------------------------------------------------------------

  const DetailsHeading := "📊 Detaylar:"
  const SuggestionsHeading := "💡 Öneriler:"
  const ActivitiesHeading := "🎯 Bu hızda yapabilecekleriniz:"

  /** `analyze_results`: the score and the analysis text as its sections.
      The verdict for the score comes first, then the three detail lines,
      then the suggestions section exactly when at least one suggestion
      applies, and the activity guide last. The numbers inside the detail
      lines are not rendered. */
  function Analyze(download: real, upload: real, ping: real): (r: (int, seq<Section>))
    ensures var (score, sections) := r;
      && score == Score(download, upload, ping)
      && (|sections| == 3 || |sections| == 4)
      && sections[0] == Section("", [Verdict(score)])
      && sections[1] == Section(DetailsHeading, [
           "📥 İndirme Hızı: " + DownloadComponent(download).rating,
           "📤 Yükleme Hızı: " + UploadComponent(upload).rating,
           "📡 Ping: " + PingComponent(ping).rating])
      && sections[|sections| - 1] == Section(ActivitiesHeading, ActivityGuide(download, upload, ping))
      && (|sections| == 4 <==> download < 25.0 || upload < 5.0 || ping > 100.0)
      && (|sections| == 4 ==> sections[2] == Section(SuggestionsHeading, Suggestions(download, upload, ping)))
  {
    var score := Score(download, upload, ping);
    var details := [
      "📥 İndirme Hızı: " + DownloadComponent(download).rating,
      "📤 Yükleme Hızı: " + UploadComponent(upload).rating,
      "📡 Ping: " + PingComponent(ping).rating];
    var suggestions := Suggestions(download, upload, ping);
    assert suggestions != [] <==> download < 25.0 || upload < 5.0 || ping > 100.0 by {
      if download < 25.0 { assert SuggestDownload in suggestions; }
      else if upload < 5.0 { assert SuggestUpload in suggestions; }
      else if ping > 100.0 { assert SuggestPing in suggestions; }
    }
    var sections :=
      [Section("", [Verdict(score)]), Section(DetailsHeading, details)]
      + (if suggestions != [] then [Section(SuggestionsHeading, suggestions)] else [])
      + [Section(ActivitiesHeading, ActivityGuide(download, upload, ping))];
    (score, sections)
  }

  /** The estimated jitter of `run_speed_test`: `max(1, ping * 0.1)`. */
  function Jitter(ping: real): (j: real)
    ensures j >= 1.0 && j >= ping * 0.1
    ensures j == 1.0 || j == ping * 0.1
  {
    if ping * 0.1 > 1.0 then ping * 0.1 else 1.0
  }

  /** Colour of the score label in `update_results`. */
  function ScoreColor(score: int): (c: string)
    ensures c == "success" <==> score >= 80
    ensures c == "warning" <==> 60 <= score < 80
    ensures c == "danger" <==> score < 60
  {
    if score >= 80 then "success" else if score >= 60 then "warning" else "danger"
  }

  // ---------------------------------------------------------------------
  // History view
  // ---------------------------------------------------------------------

  /** `s[-n:]`: the last `n` elements, or all of `s` when it is shorter. */
  function LastN<T>(s: seq<T>, n: nat): (r: seq<T>)
    ensures |r| == if |s| < n then |s| else n
    ensures r == s[|s| - |r|..]
  {
    if |s| > n then s[|s| - n..] else s
  }

  /** The rows `refresh_history` leaves in the tree, top to bottom. */
  function HistoryRows(history: seq<HistoryEntry>): seq<HistoryEntry>
  {
    LastN(history, 20)
  }

  /** The rows are the last (at most) 20 entries, oldest on top: the entry
      just recorded is the BOTTOM row, although the comment next to the loop
      says newest on top. */
  lemma NewestEntryIsBottomRow(history: seq<HistoryEntry>, e: HistoryEntry)
    ensures |HistoryRows(history + [e])| == if |history| < 20 then |history| + 1 else 20
    ensures HistoryRows(history + [e])[|HistoryRows(history + [e])| - 1] == e
    ensures |history| >= 20 ==> HistoryRows(history + [e])[0] == history[|history| - 19]
  {
  }

  /** The entry `update_results` appends for a measurement with its score. */
  function Entry(data: TestData, score: int): (e: HistoryEntry)
    ensures e.timestamp == data.timestamp && e.score == score
    ensures e.download == data.download && e.upload == data.upload
    ensures e.ping == data.ping && e.jitter == data.jitter
    ensures data.isp.Some? ==> e.isp == data.isp.value
    ensures data.isp.None? ==> e.isp == "Bilinmiyor"
  {
    HistoryEntry(data.timestamp, data.download, data.upload, data.ping, data.jitter, score,
                 match data.isp case Some(name) => name case None => "Bilinmiyor")
  }

  /** The application's state: the testing flag, the test history, the rows
      of the history tree and the entries last handed to the chart. */
  class SpeedTestApp {
    var isTesting: bool
    var testHistory: seq<HistoryEntry>
    var historyRows: seq<HistoryEntry>
    var chartData: seq<HistoryEntry>

    /** `__init__`, with the history that `load_history` read from disk. */
    constructor (loaded: seq<HistoryEntry>)
      ensures !isTesting && testHistory == loaded && historyRows == [] && chartData == []
    {
      isTesting := false;
      testHistory := loaded;
      historyRows := [];
      chartData := [];
    }

    /** Starts a test unless one is running; `launched` tells whether a test
        thread was started. */
    method StartSpeedTest() returns (launched: bool)
      modifies this
      ensures launched == !old(isTesting)
      ensures isTesting
      ensures testHistory == old(testHistory) && historyRows == old(historyRows)
      ensures chartData == old(chartData)
    {
      if isTesting {
        return false;
      }
      isTesting := true;
      launched := true;
    }

    method StopSpeedTest()
      modifies this
      ensures !isTesting
      ensures testHistory == old(testHistory) && historyRows == old(historyRows)
      ensures chartData == old(chartData)
    {
      isTesting := false;
    }

    method FinishTest()
      modifies this
      ensures !isTesting
      ensures testHistory == old(testHistory) && historyRows == old(historyRows)
      ensures chartData == old(chartData)
    {
      isTesting := false;
    }

    /** Clears every row of the tree, then inserts each of the last 20
        entries, taken newest first, at position 0. */
    method RefreshHistory()
      modifies this`historyRows
      ensures historyRows == HistoryRows(testHistory)
    {
      var children := historyRows;
      var i := 0;
      while i < |children|
        invariant 0 <= i <= |children|
        invariant historyRows == children[i..]
      {
        historyRows := historyRows[1..];
        i := i + 1;
      }
      var recent := if |testHistory| > 20 then testHistory[|testHistory| - 20..] else testHistory;
      var k := |recent|;
      while k > 0
        invariant 0 <= k <= |recent|
        invariant historyRows == recent[k..]
      {
        k := k - 1;
        historyRows := [recent[k]] + historyRows;
      }
    }

    /** Scores a measurement, records it, refreshes the rows and hands the
        last 10 entries to the chart. */
    method UpdateResults(data: TestData) returns (score: int, analysis: seq<Section>)
      modifies this
      ensures (score, analysis) == Analyze(data.download, data.upload, data.ping)
      ensures testHistory == old(testHistory) + [Entry(data, score)]
      ensures historyRows == HistoryRows(testHistory)
      ensures chartData == LastN(testHistory, 10)
      ensures isTesting == old(isTesting)
    {
      var result := Analyze(data.download, data.upload, data.ping);
      score, analysis := result.0, result.1;
      var entry := Entry(data, score);
      testHistory := testHistory + [entry];
      RefreshHistory();
      chartData := LastN(testHistory, 10);
    }

    /** `clear_history` once the user has answered the confirmation dialog. */
    method ClearHistory(confirmed: bool)
      modifies this
      ensures confirmed ==> testHistory == [] && historyRows == [] && chartData == []
      ensures !confirmed ==> testHistory == old(testHistory) && historyRows == old(historyRows)
                             && chartData == old(chartData)
      ensures isTesting == old(isTesting)
    {
      if confirmed {
        testHistory := [];
        RefreshHistory();
        chartData := [];
      }
    }
  }
}
