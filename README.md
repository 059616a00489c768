# Verified model of the tutorial repository's stateful logic

This project models, in Dafny, the parts of a collection of Python tutorial
scripts that carry real decision logic, and proves what they promise:

- **Speed-test desktop tool** (`tools/speed_test.py`), module `SpeedTest`:
  - the banded 0–100 connection score, the verdict line, the conditional suggestions and the activity guide of `analyze_results` / `get_activity_guide`;
  - the jitter estimate;
  - the `is_testing` flag of start / stop / finish;
  - the history bookkeeping of `update_results`, `refresh_history` and `clear_history` (class `SpeedTestApp`).
- **Voice assistant** (`tools/sesli_asistan.py`), module `VoiceAssistant`:
  - `process_command`: the exit-word check, then the first matching entry of the ordered pattern table, with the handler's argument taken from the match groups;
  - the character whitelist of `calculate`;
  - the alias table of `open_application`;
  - the note and reminder lists (class `Assistant`), including the in-place filtering loop of `check_reminders`.
- **Bar-chart race** (`pandas_learn/pandas_learn.py`), module `BarRace`:
  - clamping of the command line into `Config`;
  - tween frames with their exact count;
  - the day shown by a frame;
  - per-product running sums of daily revenue;
  - cyclic colours and dot-grouped currency labels.
- **City/district endpoint** (`flask_learn/app.py`), module `CityApi`: the 400 / 404 / 200 decision and the case-insensitive first-match lookup.
- **User store** (`fast_api_learn/fast_app.py`), module `UserApi`: the append-only `users` list.
- **Elementary functions** (`python_basic_learn/temel_kavramlar/fonksiyonlar.py`), module `BasicFunctions`.
- **Small classes** (`python_basic_learn/OOP/classes_oop.py`, `python_basic_learn/OOP/Inheritance_oop.py`), modules `ClassesOop` and `InheritanceOop`: constructors and setters on classes, method lookup along the base-class chain, the fruit `info` texts, and the name-mangled private price.

Shared helpers live in `Text` (Python's `str.lower`, `str.strip`, substring test, `str(n)`) and `Wrappers` (`Option`).

Speeds, prices and scores are exact `real`s. Python's `int()` truncation toward zero is written out (`SpeedTest.Trunc`).

The download and upload points are not monotone in the speed. In the band from 10 to 25 Mbps, the slope of 0.67 (`tools/speed_test.py:574` and `:591`) reaches 20.05 points just below 25 Mbps, where the next band starts at 20. So 24.99 Mbps earns more than 25 Mbps (`SpeedTest.PointsDropAt25`). The model keeps the source's constants.

One behaviour is modelled as written, although a comment next to it says otherwise. `refresh_history` inserts each entry of `reversed(recent)` at position 0. That leaves the tree rows oldest-first, although the comment says "newest on top" (`tools/speed_test.py:767`). The model follows the code: `SpeedTest.NewestEntryIsBottomRow` proves that the entry just recorded is the bottom row.

## Model

| member | source | states |
|---|---|---|
| SpeedTest.Trunc | tools/speed_test.py:624 | `int(x)`: truncation toward zero, on both sides of zero |
| SpeedTest.DownloadComponent | tools/speed_test.py:563-580 | the first matching band, checked top-down (from 100 / 50 / 25 / 10 Mbps); its rating ("Mükemmel", "Çok İyi", "İyi", "Orta", "Düşük"); its points: 40, then [30, 40), [20, 30), [10, 20.05), and the download itself below 10 Mbps |
| SpeedTest.UploadComponent | tools/speed_test.py:583-600 | the first matching band (from 50 / 25 / 10 / 5 Mbps); its rating ("Mükemmel", "Çok İyi", "İyi", "Orta", "Düşük"); its points: 30, then [20, 30), [10, 20.05), [5, 10), and the upload itself below 5 Mbps |
| SpeedTest.PingComponent | tools/speed_test.py:603-620 | the first matching band (up to 20 / 50 / 100 / 200 ms); its rating ("Mükemmel", "İyi", "Orta", "Yavaş", "Çok Yavaş"); its points: 30, then [20, 29.9), [10, 20), [5, 10), and 0 above 200 ms |
| SpeedTest.PointsDropAt25 | tools/speed_test.py:570-591 | the 0.67 slope below 25 Mbps overshoots the next band: 24.99 Mbps earns 20.0433 points, more than the 20 of 25 Mbps, for download and for upload |
| SpeedTest.SpeedBandsMonotone | tools/speed_test.py:563-600 | a faster download or upload never lands in a worse band |
| SpeedTest.PingScoreAntitone | tools/speed_test.py:603-620 | a higher ping never earns more points nor a better band |
| SpeedTest.Score | tools/speed_test.py:624 | the score lies in [0, 100]; it is 100 iff the raw sum is at least 100, and 0 iff the raw sum is below 1 |
| SpeedTest.ClampInactiveForMeasurements | tools/speed_test.py:560-624 | for non-negative measurements the raw sum is already within [0, 100], so the clamp never acts |
| SpeedTest.FullScoreNeedsTopBands | tools/speed_test.py:560-624 | a score of 100 needs all three components in their top band |
| SpeedTest.Verdict | tools/speed_test.py:626-635 | the verdict line is chosen by the thresholds 90 / 75 / 60 / 40, one iff per line |
| SpeedTest.Suggestions | tools/speed_test.py:638-644 | each suggestion is present iff its condition holds (download < 25, upload < 5, ping > 100); they appear in that order and nothing else appears |
| SpeedTest.Analyze | tools/speed_test.py:553-657 | `analyze_results`: the score of the measurement, then the sections: the verdict for that score, the three detail lines carrying the download, upload and ping ratings, the suggestions section iff at least one suggestion applies (download < 25, upload < 5 or ping > 100), and the activity guide last |
| SpeedTest.ActivityGuide | tools/speed_test.py:659-689 | always one video line, one upload line and one ping line, in that order, each chosen by its thresholds; a fourth "remote work" line iff download ≥ 50 and upload ≥ 10 |
| SpeedTest.Jitter | tools/speed_test.py:480 | `max(1, ping * 0.1)`: at least 1 and at least ping·0.1, and equal to one of the two |
| SpeedTest.ScoreColor | tools/speed_test.py:520-526 | the label colour is success iff score ≥ 80, warning iff 60 ≤ score < 80, and danger otherwise |
| SpeedTest.LastN | tools/speed_test.py:765 | `s[-n:]` for n ≥ 1 (only 10 and 20 are used): the last min(n, \|s\|) elements |
| SpeedTest.Entry | tools/speed_test.py:533-541 | the history entry copies timestamp, download, upload, ping and jitter of the measurement and its score; the ISP is the measured one, or "Bilinmiyor" when none is known |
| SpeedTest.NewestEntryIsBottomRow | tools/speed_test.py:764-776 | after recording an entry, the rows are the last ≤ 20 entries, oldest on top, and the new entry is the bottom row |
| SpeedTest.SpeedTestApp.constructor | tools/speed_test.py:48-61 | not testing; the history is the loaded one |
| SpeedTest.SpeedTestApp.StartSpeedTest | tools/speed_test.py:424-436 | a test is launched iff none was running; afterwards the flag is set; the history is untouched |
| SpeedTest.SpeedTestApp.StopSpeedTest | tools/speed_test.py:438-444 | the flag is reset; the history is untouched |
| SpeedTest.SpeedTestApp.FinishTest | tools/speed_test.py:750-756 | the flag is reset; the history is untouched |
| SpeedTest.SpeedTestApp.RefreshHistory | tools/speed_test.py:758-776 | whatever rows were there, afterwards the rows are exactly the last ≤ 20 entries, oldest first, so a second call changes nothing |
| SpeedTest.SpeedTestApp.UpdateResults | tools/speed_test.py:507-551 | returns the analysis of the measurement; appends exactly one entry, with ISP "Bilinmiyor" when none is known; refreshes the rows; hands the last ≤ 10 entries to the chart |
| SpeedTest.SpeedTestApp.ClearHistory | tools/speed_test.py:802-814 | when confirmed, history, rows and chart are empty; otherwise nothing changes |
| VoiceAssistant.FirstNonEmptyGroup | tools/sesli_asistan.py:173-175 | the group picked is present, non-empty and one of the groups; with none, every group is absent or empty |
| VoiceAssistant.FirstNonEmptyGroupIsFirst | tools/sesli_asistan.py:173-175 | every group before the picked one is absent or empty |
| VoiceAssistant.HandlerArgument | tools/sesli_asistan.py:172-181 | with every group absent or empty there is no argument; an argument is non-empty and is some group, stripped |
| VoiceAssistant.HandlerArgumentIsFirst | tools/sesli_asistan.py:172-181 | the argument comes from the first non-empty group: that group stripped, or no argument when it strips to "" |
| VoiceAssistant.Dispatch | tools/sesli_asistan.py:157-190 | `process_command` on a command: it exits iff the stripped, lowercased command contains an exit word |
| VoiceAssistant.Lookup | tools/sesli_asistan.py:167-182 | the table loop finds the outcome of the first matching entry; a handler that needs an argument runs only with one |
| VoiceAssistant.FindHandlerFirstMatch | tools/sesli_asistan.py:167-190 | "not understood" iff no pattern matches; otherwise the first matching entry runs, with the stripped first non-empty group as its argument; a required argument that is missing makes the handler fail |
| VoiceAssistant.DispatchFirstMatch | tools/sesli_asistan.py:157-190 | after strip and lowercase, the command exits iff it contains an exit word; otherwise the first pattern of the table that matches is handled, as above |
| VoiceAssistant.VolumeDownCommandExits | tools/sesli_asistan.py:66 | "ses seviyesi kapat" exits the assistant instead of reaching the volume handler, whatever the matcher does |
| VoiceAssistant.Replace | tools/sesli_asistan.py:240-242 | `str.replace`: replacing a word by itself changes nothing |
| VoiceAssistant.ReplacePrefix | tools/sesli_asistan.py:240-242 | up to the first replacement character, the output copies the input |
| VoiceAssistant.ReplaceRemovesAll | tools/sesli_asistan.py:240-242 | with a non-empty replacement sharing no character with the word (as for every operator word), no occurrence of the word is left |
| VoiceAssistant.ReplaceAbsent | tools/sesli_asistan.py:240-242 | replacing a word that holds a character the text never uses changes nothing |
| VoiceAssistant.SpokenOperators | tools/sesli_asistan.py:240-242 | the five operator-word replacements, in order; each word holds a character outside the whitelist, so a whitelisted expression comes out unchanged |
| VoiceAssistant.Calculate | tools/sesli_asistan.py:231-243 | the expression is rejected iff it holds a character outside "0123456789+-*/()., "; an accepted expression reaches `eval` unchanged by the word replacements |
| VoiceAssistant.OpenApplication | tools/sesli_asistan.py:340-366 | the name is lowercased and stripped; a known alias maps to its application, any other name is used as is; the reply names the application |
| VoiceAssistant.CalculatorAlias | tools/sesli_asistan.py:348 | "hesap makinesi" opens Calculator |
| VoiceAssistant.PendingAppend | tools/sesli_asistan.py:470-473 | the kept reminders (`Pending`) and the announced ones (`Due`) distribute over concatenation |
| VoiceAssistant.PendingNotDue | tools/sesli_asistan.py:471 | every reminder `Pending` keeps is not yet due; every one `Due` announces is due |
| VoiceAssistant.PendingDuePartition | tools/sesli_asistan.py:470-473 | each reminder is either kept or announced, never both |
| VoiceAssistant.CheckRemindersIdempotent | tools/sesli_asistan.py:467-473 | a second check at the same time keeps the same list and announces nothing |
| VoiceAssistant.RemoveFirst | tools/sesli_asistan.py:473 | `list.remove` of a present element: the list gets one element shorter |
| VoiceAssistant.RemoveFirstMultiset | tools/sesli_asistan.py:473 | `list.remove(x)` takes away exactly one occurrence of x and nothing else |
| VoiceAssistant.RemoveFirstSkipsKept | tools/sesli_asistan.py:473 | `list.remove` of a due reminder removes that very reminder, not an earlier kept one |
| VoiceAssistant.Announcements | tools/sesli_asistan.py:472 | one "Hatırlatma: " line per reminder, in order |
| VoiceAssistant.AnnouncementsAppend | tools/sesli_asistan.py:472 | announcing one more reminder adds its line at the end |
| VoiceAssistant.CheckStepKept | tools/sesli_asistan.py:470-473 | one loop iteration removes the visited reminder from the live list exactly when it is due, and that reminder is there to remove |
| VoiceAssistant.CheckStepAnnounced | tools/sesli_asistan.py:470-472 | one loop iteration adds the visited reminder's line at the end exactly when it is due |
| VoiceAssistant.Assistant.constructor | tools/sesli_asistan.py:60-99 | the loaded notes; no reminders |
| VoiceAssistant.Assistant.TakeNote | tools/sesli_asistan.py:291-300 | appends one note, timestamped now, at the end |
| VoiceAssistant.Assistant.SetReminder | tools/sesli_asistan.py:411-423 | appends one reminder due five minutes after now |
| VoiceAssistant.Assistant.ReadNotes | tools/sesli_asistan.py:302-316 | with no notes, only "Hiç not yok."; otherwise the total count, then the last ≤ 5 notes numbered from 1 |
| VoiceAssistant.Assistant.CheckReminders | tools/sesli_asistan.py:467-473 | the list keeps exactly the reminders not yet due, in order; the due ones are announced in list order |
| VoiceAssistant.Assistant.ProcessCommand | tools/sesli_asistan.py:157-190 | the outcome is the dispatch of the command; it keeps listening iff the command is not an exit; only a note or reminder handler changes the lists, by one entry |
| Text.Lower | tools/sesli_asistan.py:159 | `str.lower`: same length, character by character |
| Text.LowerIdempotent | tools/sesli_asistan.py:159 | lowercasing twice is lowercasing once |
| Text.Strip | tools/sesli_asistan.py:159 | `str.strip`: the result is the slice of the input that starts after the leading whitespace, only whitespace (every character `str.isspace` accepts) lies outside it, and neither of its ends is whitespace; it is empty iff the input is all whitespace |
| Text.NormalizePlain | tools/sesli_asistan.py:159 | plain lowercase words with no blank at either end are unchanged by strip and lower |
| Text.Digits | pandas_learn/pandas_learn.py:196-197 | the decimal digits of n, with no leading zero |
| Text.DigitsRoundTrip | pandas_learn/pandas_learn.py:196-197 | reading the digits back gives n |
| BarRace.AtLeast | pandas_learn/pandas_learn.py:75-79 | `max(lo, x)`: at least both, and equal to one of them |
| BarRace.ParseArgs | pandas_learn/pandas_learn.py:56-85 | tween, fps and interval become exactly max(1, x) and days and products exactly max(2, x), so each is in range and unchanged when already in range; top_n, seed, out, csv and save pass through; show iff --show or not --save |
| BarRace.ParseArgsIdempotent | pandas_learn/pandas_learn.py:72-85 | feeding a parsed configuration back in changes nothing |
| BarRace.Lerp | pandas_learn/pandas_learn.py:192 | `v0 * (1 - alpha) + v1 * alpha`, column by column |
| BarRace.LerpAtOne | pandas_learn/pandas_learn.py:191-192 | at alpha = 1 the blend is the next day's row |
| BarRace.Alpha | pandas_learn/pandas_learn.py:191 | alpha lies in (0, 1], and it is 1 iff s is the last step |
| BarRace.BuildTweenFrames | pandas_learn/pandas_learn.py:184-193 | exactly 1 + (days − 1)·tween frames; frame 0 is day 0; step s between day p and day p+1 is the blend with alpha = (s+1)/tween |
| BarRace.KeyFramesAreDays | pandas_learn/pandas_learn.py:187-192 | frame k·tween is exactly day k |
| BarRace.DayIndex | pandas_learn/pandas_learn.py:215 | `min(frame // tween, len(dates) − 1)` is always a valid index into the dates |
| BarRace.DayIndexOfKeyFrame | pandas_learn/pandas_learn.py:215 | frame k·tween shows day k |
| BarRace.DayIndexMonotone | pandas_learn/pandas_learn.py:215 | a later frame never shows an earlier day |
| BarRace.InsertDay | pandas_learn/pandas_learn.py:160-163 | inserting a day keeps the day list ascending and distinct, with the day added |
| BarRace.OrderDays | pandas_learn/pandas_learn.py:160-166 | the table's index: the distinct order days, ascending |
| BarRace.BuildCumulative | pandas_learn/pandas_learn.py:154-167 | one row per order day, one column per product |
| BarRace.CumulativeIsRevenueUpTo | pandas_learn/pandas_learn.py:157-165 | each cell is the revenue (price × quantity) of its product from all orders placed on or before its day |
| BarRace.RunningSumIsRevenueUpTo | pandas_learn/pandas_learn.py:165 | the running sum of daily totals up to day d is the revenue up to day d |
| BarRace.ColumnsNonDecreasing | pandas_learn/pandas_learn.py:157-165 | with non-negative order totals, every column is non-decreasing from day to day |
| BarRace.MakeColorMap | pandas_learn/pandas_learn.py:174-181 | every label, and nothing else, gets a colour: palette entry (index mod palette length) of its last occurrence |
| BarRace.GroupedDigits | pandas_learn/pandas_learn.py:196-197 | removing the "." separators from the grouped number gives its plain digits |
| BarRace.Grouped | pandas_learn/pandas_learn.py:196-197 | the grouped number is non-empty and starts with a digit |
| BarRace.GroupedShape | pandas_learn/pandas_learn.py:196-197 | the grouped number is a leading group of one to three digits (the digits of what is left after dropping whole groups of three, so no leading zero) followed by groups of a "." and exactly three digits, up to the end |
| BarRace.FormatCurrency | pandas_learn/pandas_learn.py:196-197 | the label starts with "-" iff the amount is negative, then holds the grouped digits of the absolute amount (dots removed, they are its decimal digits), then ends in " ₺" |
| CityApi.ListCities | flask_learn/app.py:8-13 | "success" with every city name, in table order |
| CityApi.NameMatches | flask_learn/app.py:23 | a city name matches a query iff both have the same length and agree character by character once lowercased |
| CityApi.FirstMatch | flask_learn/app.py:23 | a found city's name matches the query, ignoring case |
| CityApi.FirstMatchIsFirst | flask_learn/app.py:23 | nothing is found iff no city matches; otherwise no earlier city matches |
| CityApi.GetDistricts | flask_learn/app.py:18-31 | 400 iff the parameter is missing or empty, with its message; 404 carries its message; success carries the districts body |
| CityApi.GetDistrictsFirstMatch | flask_learn/app.py:23-31 | a non-empty query gets 404 iff no city matches; otherwise it gets the stored spelling and districts of the first match |
| CityApi.GetDistrictsIgnoresCase | flask_learn/app.py:23 | the answer does not depend on the case of the query |
| UserApi.UserStore.constructor | fast_api_learn/fast_app.py:15 | the store starts with no users |
| UserApi.UserStore.GetUsers | fast_api_learn/fast_app.py:18-20 | the whole list, in insertion order |
| UserApi.UserStore.AddUser | fast_api_learn/fast_app.py:23-26 | appends the user at the end, whatever its id, and returns it unchanged; earlier users stay in order |
| UserApi.AfterAddsIsConcatenation | fast_api_learn/fast_app.py:24-25 | a series of additions leaves the old list followed by every added user, in order, duplicates included |
| UserApi.AddAll | fast_api_learn/fast_app.py:24-25 | a store that receives the users one by one ends as that series describes |
| BasicFunctions.ToplamaCikarmaInverse | python_basic_learn/temel_kavramlar/fonksiyonlar.py:1-4 | `cikarma` undoes `toplama` and vice versa |
| BasicFunctions.Bolme | python_basic_learn/temel_kavramlar/fonksiyonlar.py:7-11 | the message "Bir sayı sıfıra bölünemez" iff b = 0; otherwise a quotient that multiplied by b gives a |
| BasicFunctions.BolmeCarpmaInverse | python_basic_learn/temel_kavramlar/fonksiyonlar.py:5-11 | dividing by a non-zero b undoes `carpma` by b |
| BasicFunctions.Faktoriyel | python_basic_learn/temel_kavramlar/fonksiyonlar.py:19-23 | the factorial is at least 1 |
| BasicFunctions.FaktoriyelIsProduct | python_basic_learn/temel_kavramlar/fonksiyonlar.py:19-23 | `faktoriyel(n)` equals the product 1·2·…·n |
| BasicFunctions.FaktoriyelDivisible | python_basic_learn/temel_kavramlar/fonksiyonlar.py:19-23 | every k from 1 to n divides `faktoriyel(n)` |
| BasicFunctions.ArgSum | python_basic_learn/temel_kavramlar/fonksiyonlar.py:27-28 | the sum of no arguments is 0, and of one argument that argument; with ArgSumAppend this fixes `sum(args)` |
| BasicFunctions.ArgSumAppend | python_basic_learn/temel_kavramlar/fonksiyonlar.py:27-28 | the sum over two argument lists in turn is the sum of the two sums |
| BasicFunctions.DefaultParamAddsTen | python_basic_learn/temel_kavramlar/fonksiyonlar.py:38-39 | without a second argument, `default_param(a)` is a + 10 |
| ClassesOop.Person.constructor | python_basic_learn/OOP/classes_oop.py:12-16 | stores the given name, age and gender |
| ClassesOop.Person.DenemeFnc | python_basic_learn/OOP/classes_oop.py:17-19 | sets age to 18; name and gender are outside its frame |
| ClassesOop.Dog.constructor | python_basic_learn/OOP/classes_oop.py:26-30 | stores the age (5 by default) and copies the class attribute `year` (7) |
| ClassesOop.Dog.HumanAge | python_basic_learn/OOP/classes_oop.py:31-32 | seven times the age (the literal 7, not `self.year`); changes nothing |
| ClassesOop.DogsAgree | python_basic_learn/OOP/classes_oop.py:27-30 | `dogHumanAge` does not depend on the age given |
| ClassesOop.DefaultDog | python_basic_learn/OOP/classes_oop.py:28-32 | a dog built without an age is 35 in human years |
| InheritanceOop.Resolve | python_basic_learn/OOP/Inheritance_oop.py:4-23 | a method resolves to a class that defines it, and to the class itself when it defines one |
| InheritanceOop.OverrideAndInherit | python_basic_learn/OOP/Inheritance_oop.py:9-23 | on `MusicianPlus`, `test1` is the override and `test2` is inherited from `Musician` |
| InheritanceOop.Test1Line | python_basic_learn/OOP/Inheritance_oop.py:9-23 | `test1` prints the line of the class it resolves to |
| InheritanceOop.Test2Line | python_basic_learn/OOP/Inheritance_oop.py:12-13 | `test2` prints the `Musician` line |
| InheritanceOop.MusicianObject.constructor | python_basic_learn/OOP/Inheritance_oop.py:5-18 | both constructors store the name |
| InheritanceOop.Info | python_basic_learn/OOP/Inheritance_oop.py:35-42 | "100 colorie " for a banana and "200 colorie " for an apple, followed by the fruit's name |
| InheritanceOop.InfoDistinguishes | python_basic_learn/OOP/Inheritance_oop.py:32-46 | the calorie figure tells banana from apple, and two fruits give the same text iff they are the same fruit |
| InheritanceOop.Phone.constructor | python_basic_learn/OOP/Inheritance_oop.py:54-56 | stores the name and the private price; no outside attribute yet |
| InheritanceOop.Phone.Info | python_basic_learn/OOP/Inheritance_oop.py:57-58 | the line is the name, " price is ", then the private price |
| InheritanceOop.Phone.ChangePrice | python_basic_learn/OOP/Inheritance_oop.py:59-60 | replaces the private price; the name is outside its frame |
| InheritanceOop.Phone.AssignOutside | python_basic_learn/OOP/Inheritance_oop.py:64-66 | assigning `__price` from outside creates a separate attribute; `info` reports the same line as before |

## Left out

- The tkinter and matplotlib user interfaces, message boxes, threads and `root.after` scheduling of the speed-test tool. The `speedtest` measurements and `ipapi.co` lookups are replaced by the measured numbers given as parameters.
- JSON loading, saving and export of the test history and of the notes. The loaded history and notes are constructor parameters.
- Float formatting such as `:.2f` in the analysis lines. `SpeedTest.Analyze` keeps each detail line's rating but not the rendered number.
- Speech recognition, text-to-speech, `subprocess`, `webbrowser`, Wikipedia, `psutil`, logging and the listening loop of the assistant. What the assistant says is returned as lines.
- The effects of the handlers other than notes, reminders, `calculate` and `open_application`; they act only on the outside world.
- The `eval` call of `calculate`: the model stops at the expression handed to it.
- Python's regular-expression engine. `process_command` takes the matcher as a parameter that returns the match groups.
- `datetime.now()`: the time is a parameter, as seconds for comparisons and ISO text for notes.
- Text.LowerChar: covers ASCII letters and the Turkish capitals Ç, Ğ, Ö, Ş, Ü; Python's full Unicode lowercasing (for example 'İ' becoming two characters) is not modelled.
- Random sample-data generation, `coerce_df` cleaning (type coercion, dropping incomplete rows) and all plotting of the bar-chart race.
- BarRace.BuildCumulative: the caller supplies the whole product column list (which products appear and in what order; pandas takes the products ordered and sorts the labels) instead of it being computed from the orders.
- BarRace.FormatCurrency: works on the already-rounded whole amount; the rounding of a float by `:,.0f` is not modelled.
- BarRace.BuildTweenFrames: requires at least one row (the source raises on an empty table) and takes the tween count as a natural number, since `parse_args` clamps it to at least 1.
- BarRace.MakeColorMap: the palette (matplotlib's Tableau and CSS4 colours) is a non-empty parameter.
- BasicFunctions.Faktoriyel: defined for natural numbers only; for a negative argument the source recursion never reaches its base case and ends in a recursion error.
- Printing in the OOP examples: `info` and `test1`/`test2` are modelled by the text they print.
- The Flask and FastAPI frameworks (routing, JSON encoding, pydantic validation); the city table of `cities_data` is not part of this model and is a parameter.
