/**
 * The logic of the robot's Flask backend: parsing of the lines the Arduino
 * sends, the classification of audio clip file names, the default serial
 * port, the single-letter commands placed on the Arduino work queue, the
 * port checks of the connect route and the connection flags.
 *
 * The module-level globals (`exitFlag`, `arduinoActive`, `batteryLevel`,
 * `workQueue`, `volume`) and the receive buffer of the serial thread are the
 * fields of one `Backend` object. The work queue is a plain sequence. Serial
 * I/O, directory listings and the list of serial devices are parameters.
 */
module WebInterface {
  import opened Wrappers
  import opened Strings
  import opened Arith

  /** `ARDUINO_PORT` of the shipped configuration. */
  const ArduinoPort := "/dev/ttyACM0"

  // ---------------------------------------------------------------------------
  // Lines received from the Arduino
  // ---------------------------------------------------------------------------

  /** `batteryLevel`: the integer -999 until a report arrives, afterwards the digits of the last report. */
  datatype Battery = NoReading | Reading(digits: string)

  /** The characters that end a received line. */
  const Terminators: set<char> := {'\n', '\r'}

  /**
   * The level a message reports: the message must mention "Battery", and the
   * second '_'-separated field must be all digits.
   */
  function BatteryField(message: string): (r: Option<string>)
    ensures r.Some? ==> Contains(message, "Battery") && IsDigits(r.value) && '_' !in r.value
    ensures r.Some? ==> |Split(message, '_')| > 1 && r.value == Split(message, '_')[1]
    ensures Contains(message, "Battery") && |Split(message, '_')| > 1 && IsDigits(Split(message, '_')[1])
            ==> r.Some?
  {
    if Contains(message, "Battery") then
      var fields := Split(message, '_');
      if |fields| > 1 && IsDigits(fields[1]) then Some(fields[1]) else None
    else None
  }

  /** `parseArduinoMessage`: the battery level after one received line; every other message leaves it. */
  function ParseArduinoMessage(level: Battery, message: string): (r: Battery)
    ensures BatteryField(message).Some? ==> r == Reading(BatteryField(message).value)
    ensures BatteryField(message).None? ==> r == level
  {
    match BatteryField(message)
    case Some(d) => Reading(d)
    case None => level
  }

  /** The battery level after a run of lines, parsed in order. */
  function ParseAll(level: Battery, lines: seq<string>): Battery
    decreases |lines|
  {
    if lines == [] then level
    else ParseArduinoMessage(ParseAll(level, lines[..|lines| - 1]), lines[|lines| - 1])
  }

  /** The report "Battery_<n>" sets the level to the decimal digits of n, which read back as n. */
  lemma BatteryReportRoundTrip(n: nat)
    ensures ParseArduinoMessage(NoReading, "Battery_" + NatToString(n)) == Reading(NatToString(n))
    ensures DigitsValue(NatToString(n)) == n
  {
    var d := NatToString(n);
    var m := "Battery_" + d;
    assert OccursAt(m, "Battery", 0);
    assert Join(["Battery", d], '_') == m;
    SplitJoin(["Battery", d], '_');
    NatToStringRoundTrip(n);
  }

  /**
   * After receiving `text`, the buffer holds its last terminator-separated
   * field and the battery level is `level` updated by every earlier field.
   */
  ghost predicate Received(text: string, level: Battery, buffer: string, battery: Battery) {
    var f := SplitAny(text, Terminators);
    buffer == f[|f| - 1] && battery == ParseAll(level, f[..|f| - 1])
  }

  lemma ReceivedStep(text: string, c: char, level: Battery, buffer: string, battery: Battery)
    requires Received(text, level, buffer, battery)
    ensures c in Terminators ==> Received(text + [c], level, "", ParseArduinoMessage(battery, buffer))
    ensures c !in Terminators ==> Received(text + [c], level, buffer + [c], battery)
  {
    var s := text + [c];
    assert s[..|s| - 1] == text;
    var before := SplitAny(text, Terminators);
    var after := SplitAny(s, Terminators);
    if c in Terminators {
      assert after[..|after| - 1] == before;
      assert before == before[..|before| - 1] + [before[|before| - 1]];
    } else {
      assert after[..|after| - 1] == before[..|before| - 1];
    }
  }

  /** The receive buffer and the battery level, as the serial thread's receiving loop updates them. */
  datatype Receiver = Receiver(buffer: string, battery: Battery)

  /** The buffer holds no line terminator. */
  predicate PlainBuffer(r: Receiver) {
    forall i :: 0 <= i < |r.buffer| ==> r.buffer[i] !in Terminators
  }

  /**
   * One received character: a terminator hands the buffer to the parser and
   * empties it; any other character is appended and leaves the level alone.
   */
  function ReceiveChar(r: Receiver, c: char): (next: Receiver)
    ensures c in Terminators <==> next.buffer == []
    ensures c !in Terminators ==> next.battery == r.battery && |next.buffer| == |r.buffer| + 1 && next.buffer[..|r.buffer|] == r.buffer
    ensures PlainBuffer(r) ==> PlainBuffer(next)
  {
    if c == '\n' || c == '\r' then Receiver("", ParseArduinoMessage(r.battery, r.buffer))
    else Receiver(r.buffer + [c], r.battery)
  }

  /** The characters of `s` received one after the other; the buffer never gains a terminator. */
  function ReceiveAll(r: Receiver, s: string): (last: Receiver)
    ensures PlainBuffer(r) ==> PlainBuffer(last)
    decreases |s|
  {
    if s == [] then r else ReceiveChar(ReceiveAll(r, s[..|s| - 1]), s[|s| - 1])
  }

  /** Input without a line terminator only extends the buffer and leaves the level alone. */
  lemma {:induction false} ReceiveLineFree(r: Receiver, s: string)
    requires forall i :: 0 <= i < |s| ==> s[i] !in Terminators
    ensures ReceiveAll(r, s) == Receiver(r.buffer + s, r.battery)
    decreases |s|
  {
    if s == [] {
      assert r.buffer + s == r.buffer;
    } else {
      var init := s[..|s| - 1];
      ReceiveLineFree(r, init);
      assert r.buffer + s == (r.buffer + init) + [s[|s| - 1]];
    }
  }

  /** A byte `bytes.decode()` accepts on its own: UTF-8 reads a lone byte only below 0x80. */
  predicate Decodable(c: char) {
    (c as int) < 0x80
  }

  /** How many bytes of `input` decode before the first one that raises. */
  function FirstUndecodable(input: string): (k: nat)
    ensures k <= |input|
    ensures forall j :: 0 <= j < k ==> Decodable(input[j])
    ensures k < |input| ==> !Decodable(input[k])
  {
    if input == [] || !Decodable(input[0]) then 0 else 1 + FirstUndecodable(input[1..])
  }

  /** The stopping point a left-to-right scan finds is the first undecodable byte. */
  lemma {:induction false} FirstUndecodableAt(input: string, k: nat)
    requires k <= |input| && forall j :: 0 <= j < k ==> Decodable(input[j])
    requires k < |input| ==> !Decodable(input[k])
    ensures FirstUndecodable(input) == k
  {
    if k > 0 {
      assert Decodable(input[0]);
      FirstUndecodableAt(input[1..], k - 1);
    }
  }

  /**
   * The serial thread's receiving loop on its local state: bytes are decoded
   * and received one at a time until one fails to decode; `stopped` is where
   * it stopped.
   */
  method ReceiveBytes(start: Receiver, input: string) returns (r: Receiver, stopped: nat)
    ensures stopped == FirstUndecodable(input)
    ensures r == ReceiveAll(start, input[..stopped])
  {
    var buffer := start.buffer;
    var battery := start.battery;
    var i := 0;
    while i < |input| && Decodable(input[i])
      invariant 0 <= i <= |input|
      invariant forall j :: 0 <= j < i ==> Decodable(input[j])
      invariant Receiver(buffer, battery) == ReceiveAll(start, input[..i])
    {
      var c := input[i];
      assert input[..i + 1][..i] == input[..i];
      if c == '\n' || c == '\r' {
        battery := ParseArduinoMessage(battery, buffer);
        buffer := "";
      } else {
        buffer := buffer + [c];
      }
      i := i + 1;
    }
    FirstUndecodableAt(input, i);
    r, stopped := Receiver(buffer, battery), i;
  }

  /**
   * Receiving character by character parses every complete line of the
   * pending text followed by the input, in order, and keeps the incomplete
   * last line buffered.
   */
  lemma {:induction false} ReceiveAllSplits(r: Receiver, s: string)
    requires forall i :: 0 <= i < |r.buffer| ==> r.buffer[i] !in Terminators
    ensures Received(r.buffer + s, r.battery, ReceiveAll(r, s).buffer, ReceiveAll(r, s).battery)
    decreases |s|
  {
    if s == [] {
      assert r.buffer + s == r.buffer;
      SplitAnyPlain(r.buffer, Terminators);
    } else {
      var init := s[..|s| - 1];
      var c := s[|s| - 1];
      ReceiveAllSplits(r, init);
      var prev := ReceiveAll(r, init);
      var text := r.buffer + init;
      assert r.buffer + s == text + [c];
      ReceivedStep(text, c, r.battery, prev.buffer, prev.battery);
      var last := ReceiveAll(r, s);
      assert last == ReceiveChar(prev, c);
      if c in Terminators {
        assert last == Receiver("", ParseArduinoMessage(prev.battery, prev.buffer));
      } else {
        assert last == Receiver(prev.buffer + [c], prev.battery);
      }
    }
  }

  // ---------------------------------------------------------------------------
  // Audio clips
  // ---------------------------------------------------------------------------

  /** One entry of the clip list handed to the page: (group, file stem, display name, duration in ms). */
  datatype AudioFile = AudioFile(group: string, file: string, name: string, timeMs: nat)

  /**
   * `os.path.splitext(item)[0]` for a name ending in ".ogg": the extension is
   * dropped unless everything before it is dots, in which case the whole name
   * is the stem. Directory entries contain no '/', so `basename` leaves them as
   * they are.
   */
  function OggStem(item: string): (stem: string)
    requires EndsWith(item, ".ogg")
    ensures stem == item || stem == item[..|item| - 4]
  {
    var base := item[..|item| - 4];
    if exists i :: 0 <= i < |base| && base[i] != '.' then base else item
  }

  lemma OggStemStripsExtension(base: string)
    requires exists i :: 0 <= i < |base| && base[i] != '.'
    ensures EndsWith(base + ".ogg", ".ogg") && OggStem(base + ".ogg") == base
  {
    var item := base + ".ogg";
    assert item[|base|..] == ".ogg";
    assert item[..|item| - 4] == base;
    var i :| 0 <= i < |base| && base[i] != '.';
    assert item[..|item| - 4][i] != '.';
  }

  lemma OggStemKeepsDotName(base: string)
    requires forall i :: 0 <= i < |base| ==> base[i] == '.'
    ensures EndsWith(base + ".ogg", ".ogg") && OggStem(base + ".ogg") == base + ".ogg"
  {
    assert (base + ".ogg")[..|base|] == base;
  }

  /**
   * The details the clip list shows for a file stem, read from its
   * '_'-separated fields: "name_ms", "group_name" or "group_name_ms"; any
   * other shape is listed under "Other" by its whole stem.
   */
  function ClassifyStem(stem: string): (r: AudioFile)
    ensures r.file == stem
    ensures |Split(stem, '_')| !in {2, 3} ==> r == AudioFile("Other", stem, stem, 0)
  {
    var f := Split(stem, '_');
    if |f| == 2 then
      if IsDigits(f[1]) then AudioFile("Other", stem, f[0], DigitsValue(f[1]))
      else AudioFile(f[0], stem, f[1], 0)
    else if |f| == 3 then
      AudioFile(f[0], stem, f[1], if IsDigits(f[2]) then DigitsValue(f[2]) else 0)
    else AudioFile("Other", stem, stem, 0)
  }

  /** A stem without '_' is listed under "Other" with no duration. */
  lemma ClassifyPlain(stem: string)
    requires '_' !in stem
    ensures ClassifyStem(stem) == AudioFile("Other", stem, stem, 0)
  {
    SplitJoin([stem], '_');
  }

  /** "name_time" with a time of digits is a clip of group "Other" lasting that many milliseconds. */
  lemma ClassifyTimed(name: string, time: string)
    requires '_' !in name && IsDigits(time)
    ensures var stem := name + "_" + time;
            ClassifyStem(stem) == AudioFile("Other", stem, name, DigitsValue(time))
  {
    DigitsHaveNoMarks(time);
    assert Join([name, time], '_') == name + "_" + time;
    SplitJoin([name, time], '_');
  }

  /** "group_name" with a name that is not a number is a clip of that group with no duration. */
  lemma ClassifyGrouped(group: string, name: string)
    requires '_' !in group && '_' !in name && !IsDigits(name)
    ensures var stem := group + "_" + name;
            ClassifyStem(stem) == AudioFile(group, stem, name, 0)
  {
    assert Join([group, name], '_') == group + "_" + name;
    SplitJoin([group, name], '_');
  }

  /** "group_name_time": the duration is the third field when it is a number, 0 otherwise. */
  lemma ClassifyGroupedTimed(group: string, name: string, time: string)
    requires '_' !in group && '_' !in name && '_' !in time
    ensures var stem := group + "_" + name + "_" + time;
            ClassifyStem(stem) == AudioFile(group, stem, name, if IsDigits(time) then DigitsValue(time) else 0)
  {
    assert Join([group, name, time], '_') == group + "_" + name + "_" + time by {
      assert [group, name, time][..2] == [group, name];
      assert [group, name][..1] == [group];
      assert Join([group, name], '_') == group + "_" + name;
    }
    SplitJoin([group, name, time], '_');
  }

  /** The names of a listing that end in ".ogg", in listing order. */
  function OggNames(items: seq<string>): (r: seq<string>)
    ensures |r| <= |items|
    ensures forall k :: 0 <= k < |r| ==> EndsWith(r[k], ".ogg")
    ensures forall x :: x in r <==> x in items && EndsWith(x, ".ogg")
    decreases |items|
  {
    if items == [] then []
    else
      var init := OggNames(items[..|items| - 1]);
      var last := items[|items| - 1];
      assert items == items[..|items| - 1] + [last];
      if EndsWith(last, ".ogg") then init + [last] else init
  }

  /**
   * Keeping only the ".ogg" names keeps a sorted listing sorted; the last
   * name kept sorts no later than the listing's last name.
   */
  lemma {:induction false} OggNamesSorted(items: seq<string>)
    requires Sorted(items)
    ensures Sorted(OggNames(items))
    ensures OggNames(items) != [] ==> LexLe(OggNames(items)[|OggNames(items)| - 1], items[|items| - 1])
    decreases |items|
  {
    if items != [] {
      var init := items[..|items| - 1];
      var last := items[|items| - 1];
      assert Sorted(init);
      OggNamesSorted(init);
      var r := OggNames(init);
      assert items == init + [last];
      OggNamesAppend(init, last);
      if r != [] {
        assert LexLe(init[|init| - 1], last);
        LexLeTransitive(r[|r| - 1], init[|init| - 1], last);
      }
      if EndsWith(last, ".ogg") {
        SortedAppend(r, last);
        LexLeTotal(last, last);
      }
    }
  }

  lemma SortedAppend(s: seq<string>, x: string)
    requires Sorted(s) && (s != [] ==> LexLe(s[|s| - 1], x))
    ensures Sorted(s + [x])
  {
  }

  function AudioEntries(names: seq<string>): (r: seq<AudioFile>)
    requires forall k :: 0 <= k < |names| ==> EndsWith(names[k], ".ogg")
    ensures |r| == |names|
  {
    seq(|names|, k requires 0 <= k < |names| => ClassifyStem(OggStem(names[k])))
  }

  /**
   * The clip list built by the index page: the directory listing in sorted
   * order, each ".ogg" name classified by its stem.
   */
  method ListAudioFiles(listing: seq<string>) returns (files: seq<AudioFile>)
    ensures files == AudioEntries(OggNames(Sort(listing)))
  {
    var items := Sort(listing);
    files := [];
    var i := 0;
    while i < |items|
      invariant 0 <= i <= |items|
      invariant files == AudioEntries(OggNames(items[..i]))
    {
      var item := items[i];
      ListingStep(items, i);
      if EndsWith(item, ".ogg") {
        files := files + [ClassifyStem(OggStem(item))];
      }
      i := i + 1;
    }
    assert items[..|items|] == items;
  }

  /** One more name of the listing adds its entry exactly when it ends in ".ogg". */
  lemma ListingStep(items: seq<string>, i: nat)
    requires i < |items|
    ensures EndsWith(items[i], ".ogg") ==>
              AudioEntries(OggNames(items[..i + 1])) ==
              AudioEntries(OggNames(items[..i])) + [ClassifyStem(OggStem(items[i]))]
    ensures !EndsWith(items[i], ".ogg") ==>
              AudioEntries(OggNames(items[..i + 1])) == AudioEntries(OggNames(items[..i]))
  {
    assert items[..i + 1] == items[..i] + [items[i]];
    OggNamesAppend(items[..i], items[i]);
    if EndsWith(items[i], ".ogg") {
      AudioEntriesAppend(OggNames(items[..i]), items[i]);
    }
  }

  lemma OggNamesAppend(items: seq<string>, item: string)
    ensures OggNames(items + [item]) == OggNames(items) + (if EndsWith(item, ".ogg") then [item] else [])
  {
    assert (items + [item])[..|items|] == items;
  }

  lemma AudioEntriesAppend(names: seq<string>, name: string)
    requires forall k :: 0 <= k < |names| ==> EndsWith(names[k], ".ogg")
    requires EndsWith(name, ".ogg")
    ensures AudioEntries(names + [name]) == AudioEntries(names) + [ClassifyStem(OggStem(name))]
  {
  }

  /** Every ".ogg" name of the listing, and nothing else, is listed, in sorted order. */
  lemma ListedClipsSorted(listing: seq<string>)
    ensures Sorted(OggNames(Sort(listing)))
    ensures forall x :: x in OggNames(Sort(listing)) <==> x in listing && EndsWith(x, ".ogg")
  {
    OggNamesSorted(Sort(listing));
    assert forall x :: x in Sort(listing) <==> x in listing by {
      forall x ensures x in Sort(listing) <==> x in listing {
        assert x in Sort(listing) <==> x in multiset(Sort(listing));
      }
    }
  }

  // ---------------------------------------------------------------------------
  // Serial ports
  // ---------------------------------------------------------------------------

  /** The port offered by default: the last one whose description mentions `key`, or 0. */
  function PreferredPort(descriptions: seq<string>, key: string): (r: nat)
    ensures r == 0 || r < |descriptions|
    ensures (exists i :: 0 <= i < |descriptions| && Contains(descriptions[i], key)) ==>
              r < |descriptions| && Contains(descriptions[r], key) &&
              forall j :: r < j < |descriptions| ==> !Contains(descriptions[j], key)
    ensures (forall i :: 0 <= i < |descriptions| ==> !Contains(descriptions[i], key)) ==> r == 0
    decreases |descriptions|
  {
    if descriptions == [] then 0
    else if Contains(descriptions[|descriptions| - 1], key) then |descriptions| - 1
    else
      var init := descriptions[..|descriptions| - 1];
      assert forall i :: 0 <= i < |init| ==> init[i] == descriptions[i];
      PreferredPort(init, key)
  }

  /** The selection loop of the index page and of the "updateList" action. */
  method SelectDefaultPort(descriptions: seq<string>, key: string) returns (selected: nat)
    ensures selected == PreferredPort(descriptions, key)
  {
    selected := 0;
    var index := 0;
    while index < |descriptions|
      invariant 0 <= index <= |descriptions|
      invariant selected == PreferredPort(descriptions[..index], key)
    {
      assert descriptions[..index + 1][..index] == descriptions[..index];
      if Contains(descriptions[index], key) {
        selected := index;
      }
      index := index + 1;
    }
    assert descriptions[..|descriptions|] == descriptions;
  }

  // ---------------------------------------------------------------------------
  // Commands for the Arduino
  // ---------------------------------------------------------------------------

  /** A joystick value as the decimal `mantissa / 10^exponent`. */
  datatype Decimal = Decimal(mantissa: int, exponent: nat)

  function Pow10(e: nat): (p: nat)
    ensures p >= 1
  {
    if e == 0 then 1 else 10 * Pow10(e - 1)
  }

  /** Integer division rounding toward zero, as Python's `int()` truncates. */
  function TruncDiv(a: int, b: nat): (q: int)
    requires b > 0
    ensures a >= 0 ==> 0 <= q && q * b <= a < q * b + b
    ensures a < 0 ==> q <= 0 && (-q) * b <= -a < (-q) * b + b
  {
    if a >= 0 then DivBracket(a, b); a / b
    else DivBracket(-a, b); -((-a) / b)
  }

  /**
   * Python's `float()` on a decimal numeral: an optional sign, then digits
   * with at most one point and at least one digit. Anything else ("abc",
   * "nan", "inf", "") raises, which the route turns into a server error.
   */
  function ParseDecimal(text: string): Option<Decimal> {
    if |text| > 0 && text[0] == '-' then
      match ParseUnsignedDecimal(text[1..])
      case Some(d) => Some(Decimal(-d.mantissa, d.exponent))
      case None => None
    else if |text| > 0 && text[0] == '+' then ParseUnsignedDecimal(text[1..])
    else ParseUnsignedDecimal(text)
  }

  /** Digits, or digits with one point between them (either side may be empty, not both). */
  function ParseUnsignedDecimal(text: string): Option<Decimal> {
    var f := Split(text, '.');
    if |f| == 1 && IsDigits(text) then Some(Decimal(DigitsValue(text), 0))
    else if |f| == 2 && AllDigits(f[0]) && AllDigits(f[1]) && |f[0]| + |f[1]| > 0 then
      assert AllDigits(f[0] + f[1]);
      Some(Decimal(DigitsValue(f[0] + f[1]), |f[1]|))
    else None
  }

  /** The text `str()` gives an integer is read back as that integer. */
  lemma ParseDecimalInteger(n: int)
    ensures ParseDecimal(IntToString(n)) == Some(Decimal(n, 0))
  {
    var s := IntToString(n);
    var m := if n < 0 then -n else n;
    var digits := NatToString(m);
    DigitsHaveNoMarks(digits);
    assert Join([digits], '.') == digits;
    SplitJoin([digits], '.');
    NatToStringRoundTrip(m);
    if n < 0 {
      assert s[1..] == digits;
    } else {
      assert s[0] != '-' && s[0] != '+';
    }
  }

  /** "a.b" with digit runs `a` and `b` is the decimal of their digits scaled by |b| places. */
  lemma ParseDecimalPoint(a: string, b: string)
    requires AllDigits(a) && AllDigits(b) && |a| + |b| > 0
    ensures AllDigits(a + b)
    ensures ParseDecimal(a + "." + b) == Some(Decimal(DigitsValue(a + b), |b|))
  {
    var s := a + "." + b;
    assert '.' !in a by {
      assert forall i :: 0 <= i < |a| ==> IsDigit(a[i]);
    }
    assert '.' !in b by {
      assert forall i :: 0 <= i < |b| ==> IsDigit(b[i]);
    }
    assert Join([a, b], '.') == s by {
      assert [a, b][..1] == [a];
    }
    SplitJoin([a, b], '.');
    assert s[|a|] == '.';
    if |a| > 0 {
      assert s[0] == a[0];
    } else {
      assert s[0] == '.';
    }
  }

  /** A character other than a digit, a point or a sign makes the text unparsable. */
  lemma ParseDecimalRejects(text: string, i: nat)
    requires i < |text| && !IsDigit(text[i]) && text[i] !in {'.', '+', '-'}
    ensures ParseDecimal(text) == None
  {
    if |text| > 0 && (text[0] == '-' || text[0] == '+') {
      assert text[1..][i - 1] == text[i];
      UnsignedDecimalRejects(text[1..], i - 1);
    } else {
      UnsignedDecimalRejects(text, i);
    }
  }

  lemma UnsignedDecimalRejects(text: string, i: nat)
    requires i < |text| && !IsDigit(text[i]) && text[i] != '.'
    ensures ParseUnsignedDecimal(text) == None
  {
    var f := Split(text, '.');
    if |f| == 2 && AllDigits(f[0]) && AllDigits(f[1]) {
      JoinSplit(text, '.');
    }
  }

  /** `int(float(stick) * 100)`: the stick value in hundredths, truncated toward zero. */
  function Hundredths(d: Decimal): (h: int)
    ensures d.mantissa >= 0 ==> 0 <= h && h * Pow10(d.exponent) <= d.mantissa * 100 < h * Pow10(d.exponent) + Pow10(d.exponent)
    ensures d.mantissa < 0 ==> h <= 0 && (-h) * Pow10(d.exponent) <= -(d.mantissa * 100) < (-h) * Pow10(d.exponent) + Pow10(d.exponent)
  {
    TruncDiv(d.mantissa * 100, Pow10(d.exponent))
  }

  /** Dividing an exact multiple of `b` by `b` truncates nothing. */
  lemma TruncDivExact(k: int, b: nat)
    requires b > 0
    ensures TruncDiv(k * b, b) == k
  {
    var t := TruncDiv(k * b, b);
    if k >= 0 {
      assert k * b >= 0;
      DivUnique(k * b, b, k, t);
    } else {
      assert (-k) * b == -(k * b);
      DivUnique(-(k * b), b, -k, -t);
    }
  }

  /** With at most two decimals nothing is truncated. */
  lemma HundredthsExact(m: int, e: nat)
    requires e <= 2
    ensures Hundredths(Decimal(m, e)) == m * Pow10(2 - e)
  {
    if e == 0 {
      assert m * 100 == (m * 100) * 1;
      TruncDivExact(m * 100, 1);
    } else if e == 1 {
      assert Pow10(1) == 10 && Pow10(2 - e) == 10;
      assert m * 100 == (m * 10) * 10;
      TruncDivExact(m * 10, 10);
    } else {
      assert Pow10(2) == 100 && Pow10(2 - e) == 1;
      TruncDivExact(m, 100);
    }
  }

  /** The two queue entries of a joystick update: "X" and "Y" followed by the hundredths. */
  function MotorCommands(x: Decimal, y: Decimal): (cmds: seq<string>)
    ensures |cmds| == 2 && |cmds[0]| > 1 && |cmds[1]| > 1 && cmds[0][0] == 'X' && cmds[1][0] == 'Y'
  {
    ["X" + IntToString(Hundredths(x)), "Y" + IntToString(Hundredths(y))]
  }

  /** How the Arduino reads an axis command back: its letter and a signed decimal number. */
  function AxisValue(cmd: string, axis: char): Option<int> {
    if |cmd| > 0 && cmd[0] == axis then ParseInt(cmd[1..]) else None
  }

  lemma MotorCommandsDecode(x: Decimal, y: Decimal)
    ensures var cmds := MotorCommands(x, y);
            AxisValue(cmds[0], 'X') == Some(Hundredths(x)) &&
            AxisValue(cmds[1], 'Y') == Some(Hundredths(y))
  {
    var cmds := MotorCommands(x, y);
    assert cmds[0][1..] == IntToString(Hundredths(x));
    assert cmds[1][1..] == IntToString(Hundredths(y));
    IntToStringRoundTrip(Hundredths(x));
    IntToStringRoundTrip(Hundredths(y));
  }

  /** The queue entry of a settings change: "O", "S" or "M" followed by the value text. */
  function SettingCommand(thing: string, value: string): (r: Option<string>)
    ensures r.Some? <==> thing in {"motorOff", "steerOff", "animeMode"}
    ensures r.Some? ==> |r.value| == |value| + 1 && r.value[1..] == value
    ensures r.Some? ==> r.value[0] == (if thing == "motorOff" then 'O' else if thing == "steerOff" then 'S' else 'M')
  {
    if thing == "motorOff" then Some("O" + value)
    else if thing == "steerOff" then Some("S" + value)
    else if thing == "animeMode" then Some("M" + value)
    else None
  }

  /** Different settings changes put different entries on the queue. */
  lemma SettingCommandInjective(t1: string, v1: string, t2: string, v2: string)
    requires SettingCommand(t1, v1).Some? && SettingCommand(t1, v1) == SettingCommand(t2, v2)
    ensures t1 == t2 && v1 == v2
  {
    var c := SettingCommand(t1, v1).value;
    assert c[0] == SettingCommand(t2, v2).value[0];
  }

  /** The queue entry of an animation request: "A" followed by the clip name, which reads back as that name. */
  function AnimateCommand(clip: string): (cmd: string)
    ensures |cmd| == |clip| + 1 && cmd[0] == 'A' && cmd[1..] == clip
  {
    "A" + clip
  }

  /** The queue entry of a servo request: the servo letter and the value text, with no separator. */
  function ServoCommand(servo: string, value: string): (cmd: string)
    ensures |cmd| == |servo| + |value| && cmd[..|servo|] == servo && cmd[|servo|..] == value
  {
    servo + value
  }

  // ---------------------------------------------------------------------------
  // Replies of the routes
  // ---------------------------------------------------------------------------

  /** The JSON replies of the modelled routes. */
  datatype Reply =
    | Ok
    | OkArduino(arduino: string)
    | OkPorts(ports: seq<string>, portSelect: nat)
    | Error(msg: string)
      /** A settings change that runs system processes (camera stream, restart, shutdown). */
    | ProcessControl
      /** An exception escaped the handler; Flask answers with a server error. */
    | ServerError

  const NotConnected := "Arduino not connected"
  const PostDataError := "Unable to read POST data"
  const ActionDataError := "Unable to read [action] POST data"
  const PortDataError := "Unable to read [port] POST data"
  const InvalidPort := "Invalid serial port selected"
  const ConnectFailed := "Unable to connect to selected serial port"

  const ProcessSettings: set<string> := {"streamer", "restart", "shutdown"}

  /**
   * The port checks of a "reconnect" request made while disconnected: the
   * port must be decimal digits naming one of the listed devices, and the
   * device must open.
   */
  function ReconnectCheck(port: Option<string>, deviceCount: nat, portOpens: bool): (r: Reply)
    ensures r == OkArduino("Connected") <==>
              port.Some? && IsDigits(port.value) && DigitsValue(port.value) < deviceCount && portOpens
    ensures r == Error(PortDataError) <==> port.None? || !IsDigits(port.value)
    ensures r == Error(InvalidPort) <==>
              port.Some? && IsDigits(port.value) && DigitsValue(port.value) >= deviceCount
    ensures r in {OkArduino("Connected"), Error(PortDataError), Error(InvalidPort), Error(ConnectFailed)}
  {
    if port.None? || !IsDigits(port.value) then Error(PortDataError)
    else if DigitsValue(port.value) < deviceCount then
      if portOpens then OkArduino("Connected") else Error(ConnectFailed)
    else Error(InvalidPort)
  }

  /** A signed port number is never accepted: the sign is not a digit. */
  lemma NegativePortRejected(n: nat, deviceCount: nat, portOpens: bool)
    ensures ReconnectCheck(Some("-" + NatToString(n)), deviceCount, portOpens) == Error(PortDataError)
  {
    assert !IsDigit(("-" + NatToString(n))[0]);
  }

  // ---------------------------------------------------------------------------
  // The backend's state
  // ---------------------------------------------------------------------------

  class Backend {
    var exitFlag: bool
    var arduinoActive: bool
    var batteryLevel: Battery
    var workQueue: seq<string>
    var volume: int
    /** The partial line the serial thread has received so far. */
    var dataString: string

    constructor ()
      ensures !exitFlag && !arduinoActive && batteryLevel == NoReading
      ensures workQueue == [] && volume == 8 && dataString == ""
      ensures Valid()
    {
      exitFlag := false;
      arduinoActive := false;
      batteryLevel := NoReading;
      workQueue := [];
      volume := 8;
      dataString := "";
    }

    /** The receive buffer never holds a line terminator. */
    ghost predicate Valid()
      reads this
    {
      forall i :: 0 <= i < |dataString| ==> dataString[i] !in Terminators
    }

    /** The state a disconnect leaves: inactive, exit requested, no reading, nothing queued. */
    ghost predicate Dropped()
      reads this
    {
      !arduinoActive && exitFlag && batteryLevel == NoReading && workQueue == []
    }

    /**
     * `onoff_arduino`: connects when inactive, disconnects otherwise. On
     * connect, a port number past the device list raises an IndexError after
     * `exitFlag` was cleared; the returned flag says so.
     */
    method OnOffArduino(portNum: nat, deviceCount: nat) returns (raised: bool)
      modifies this
      ensures volume == old(volume)
      ensures !old(arduinoActive) ==>
                !exitFlag && (raised <==> portNum >= deviceCount) && (arduinoActive <==> !raised) &&
                batteryLevel == old(batteryLevel) && workQueue == old(workQueue) &&
                dataString == (if raised then old(dataString) else "")
      ensures old(arduinoActive) ==> !raised && Dropped() && dataString == old(dataString)
    {
      if !arduinoActive {
        exitFlag := false;
        if portNum >= deviceCount {
          return true;
        }
        // The new serial thread starts with an empty receive buffer.
        dataString := "";
        arduinoActive := true;
        raised := false;
      } else {
        exitFlag := true;
        batteryLevel := NoReading;
        workQueue := [];
        arduinoActive := false;
        raised := false;
      }
    }

    /**
     * `test_arduino`: connected exactly when active with no exit requested.
     * An exit requested while active is completed here by disconnecting.
     */
    method TestArduino() returns (connected: bool)
      modifies this
      ensures connected <==> old(arduinoActive) && !old(exitFlag)
      ensures old(arduinoActive) && old(exitFlag) ==>
                Dropped() && volume == old(volume) && dataString == old(dataString)
      ensures !(old(arduinoActive) && old(exitFlag)) ==> unchanged(this)
    {
      if arduinoActive && !exitFlag {
        return true;
      } else if exitFlag && arduinoActive {
        var _ := OnOffArduino(0, 0);
        return false;
      } else {
        return false;
      }
    }

    /** The serial thread's reaction to a communication error: it requests exit. */
    method CommunicationError()
      modifies this
      ensures exitFlag
      ensures arduinoActive == old(arduinoActive) && batteryLevel == old(batteryLevel)
      ensures workQueue == old(workQueue) && volume == old(volume) && dataString == old(dataString)
    {
      exitFlag := true;
    }

    /** The sending half of the serial thread: the oldest queued command, newline-terminated. */
    method SendNext() returns (line: Option<string>)
      modifies this
      ensures old(workQueue) == [] ==> line == None && unchanged(this)
      ensures old(workQueue) != [] ==>
                line == Some(old(workQueue)[0] + "\n") && workQueue == old(workQueue)[1..]
      ensures exitFlag == old(exitFlag) && arduinoActive == old(arduinoActive)
      ensures batteryLevel == old(batteryLevel) && volume == old(volume) && dataString == old(dataString)
    {
      if workQueue != [] {
        line := Some(workQueue[0] + "\n");
        workQueue := workQueue[1..];
      } else {
        line := None;
      }
    }

    /**
     * The receiving half of the serial thread: characters accumulate in the
     * buffer, and each '\n' or '\r' hands the buffer, without the
     * terminator, to `parseArduinoMessage` and empties it. The lines handed
     * over are all fields but the last of the accumulated text split at the
     * terminators; the last field is what stays buffered. A byte that does
     * not decode on its own raises: the rest of the input is not read and the
     * thread's handler sets `exitFlag`.
     */
    method ReceiveSerial(input: string)
      requires Valid()
      modifies this
      ensures Valid()
      ensures var k := FirstUndecodable(input);
              Receiver(dataString, batteryLevel) == ReceiveAll(Receiver(old(dataString), old(batteryLevel)), input[..k])
      ensures Received(old(dataString) + input[..FirstUndecodable(input)], old(batteryLevel), dataString, batteryLevel)
      ensures exitFlag == (old(exitFlag) || FirstUndecodable(input) < |input|)
      ensures arduinoActive == old(arduinoActive) && workQueue == old(workQueue) && volume == old(volume)
    {
      var received, k := ReceiveBytes(Receiver(dataString, batteryLevel), input);
      ReceiveAllSplits(Receiver(dataString, batteryLevel), input[..k]);
      dataString := received.buffer;
      batteryLevel := received.battery;
      // a decode error is caught by the thread, which then asks to stop
      exitFlag := exitFlag || k < |input|;
    }

    /**
     * The outcome of a route that queues `cmds` once `test_arduino()` is 1:
     * queued and OK when connected; otherwise "Arduino not connected", with
     * the disconnect `test_arduino` performs when an exit was pending.
     */
    twostate predicate Queued(reply: Reply, cmds: seq<string>)
      reads this
    {
      (old(arduinoActive) && !old(exitFlag) ==>
         reply == Ok && workQueue == old(workQueue) + cmds &&
         exitFlag == old(exitFlag) && arduinoActive == old(arduinoActive) &&
         batteryLevel == old(batteryLevel) && volume == old(volume) && dataString == old(dataString)) &&
      (old(arduinoActive) && old(exitFlag) ==>
         reply == Error(NotConnected) && Dropped() && volume == old(volume) && dataString == old(dataString)) &&
      (!old(arduinoActive) ==> reply == Error(NotConnected) && unchanged(this))
    }

    method QueueIfConnected(cmds: seq<string>) returns (reply: Reply)
      modifies this
      ensures Queued(reply, cmds)
    {
      var connected := TestArduino();
      if connected {
        workQueue := workQueue + cmds;
        reply := Ok;
      } else {
        reply := Error(NotConnected);
      }
    }

    /**
     * The `/motor` route: both stick values are needed; a value `float()`
     * cannot read is a server error; otherwise they are queued as "X…" then "Y…".
     */
    method Motor(stickX: Option<string>, stickY: Option<string>) returns (reply: Reply)
      modifies this
      ensures stickX.None? || stickY.None? ==> reply == Error(PostDataError) && unchanged(this)
      ensures stickX.Some? && stickY.Some? && (ParseDecimal(stickX.value).None? || ParseDecimal(stickY.value).None?) ==>
                reply == ServerError && unchanged(this)
      ensures stickX.Some? && stickY.Some? && ParseDecimal(stickX.value).Some? && ParseDecimal(stickY.value).Some? ==>
                Queued(reply, MotorCommands(ParseDecimal(stickX.value).value, ParseDecimal(stickY.value).value))
    {
      if stickX.Some? && stickY.Some? {
        var x := ParseDecimal(stickX.value);
        var y := ParseDecimal(stickY.value);
        if x.None? || y.None? {
          reply := ServerError;
        } else {
          var xVal := Hundredths(x.value);
          var yVal := Hundredths(y.value);
          reply := QueueIfConnected(["X" + IntToString(xVal), "Y" + IntToString(yVal)]);
        }
      } else {
        reply := Error(PostDataError);
      }
    }

    /** The `/settings` route. */
    method Settings(thing: Option<string>, value: Option<string>) returns (reply: Reply)
      modifies this
      ensures thing.None? || value.None? ==> reply == Error(PostDataError) && unchanged(this)
      ensures thing.Some? && value.Some? && SettingCommand(thing.value, value.value).Some? ==>
                Queued(reply, [SettingCommand(thing.value, value.value).value])
      ensures thing == Some("volume") && value.Some? ==>
                match ParseInt(value.value)
                case Some(v) =>
                  reply == Ok && volume == v && exitFlag == old(exitFlag) &&
                  arduinoActive == old(arduinoActive) && batteryLevel == old(batteryLevel) &&
                  workQueue == old(workQueue) && dataString == old(dataString)
                case None => reply == ServerError && unchanged(this)
      ensures thing.Some? && value.Some? && thing.value in ProcessSettings ==>
                reply == ProcessControl && unchanged(this)
      ensures thing.Some? && value.Some? && SettingCommand(thing.value, value.value).None? &&
              thing.value != "volume" && thing.value !in ProcessSettings ==>
                reply == Error(PostDataError) && unchanged(this)
    {
      if thing.None? || value.None? {
        return Error(PostDataError);
      }
      var t := thing.value;
      var v := value.value;
      if t == "motorOff" {
        reply := QueueIfConnected(["O" + v]);
      } else if t == "steerOff" {
        reply := QueueIfConnected(["S" + v]);
      } else if t == "animeMode" {
        reply := QueueIfConnected(["M" + v]);
      } else if t == "volume" {
        match ParseInt(v)
        case Some(n) =>
          volume := n;
          reply := Ok;
        case None =>
          reply := ServerError;
      } else if t in ProcessSettings {
        reply := ProcessControl;
      } else {
        reply := Error(PostDataError);
      }
    }

    /** The `/animate` route: queues "A" and the clip. */
    method Animate(clip: Option<string>) returns (reply: Reply)
      modifies this
      ensures clip.None? ==> reply == Error(PostDataError) && unchanged(this)
      ensures clip.Some? ==> Queued(reply, [AnimateCommand(clip.value)])
    {
      if clip.Some? {
        reply := QueueIfConnected(["A" + clip.value]);
      } else {
        reply := Error(PostDataError);
      }
    }

    /** The `/servoControl` route: queues the servo name followed by the value. */
    method ServoControl(servo: Option<string>, value: Option<string>) returns (reply: Reply)
      modifies this
      ensures servo.None? || value.None? ==> reply == Error(PostDataError) && unchanged(this)
      ensures servo.Some? && value.Some? ==> Queued(reply, [ServoCommand(servo.value, value.value)])
    {
      if servo.Some? && value.Some? {
        reply := QueueIfConnected([servo.value + value.value]);
      } else {
        reply := Error(PostDataError);
      }
    }

    /**
     * The `/arduinoConnect` route. "updateList" offers the port list with the
     * default selection; "reconnect" disconnects a live connection, and
     * otherwise checks the requested port and connects to it.
     */
    method ArduinoConnect(action: Option<string>, port: Option<string>, descriptions: seq<string>,
                          deviceCount: nat, portOpens: bool) returns (reply: Reply)
      modifies this
      ensures action.None? || action.value !in {"updateList", "reconnect"} ==>
                reply == Error(ActionDataError) && unchanged(this)
      ensures action == Some("updateList") ==>
                reply == OkPorts(descriptions, PreferredPort(descriptions, ArduinoPort)) && unchanged(this)
      ensures action == Some("reconnect") && old(arduinoActive) && !old(exitFlag) ==>
                reply == OkArduino("Disconnected") && Dropped() &&
                volume == old(volume) && dataString == old(dataString)
      ensures action == Some("reconnect") && !(old(arduinoActive) && !old(exitFlag)) ==>
                reply == ReconnectCheck(port, deviceCount, portOpens) &&
                (arduinoActive <==> reply == OkArduino("Connected")) &&
                exitFlag == (old(exitFlag) && reply != OkArduino("Connected")) &&
                batteryLevel == (if old(arduinoActive) then NoReading else old(batteryLevel)) &&
                workQueue == (if old(arduinoActive) then [] else old(workQueue)) &&
                dataString == (if reply == OkArduino("Connected") then "" else old(dataString)) &&
                volume == old(volume)
    {
      if action == Some("updateList") {
        var selected := SelectDefaultPort(descriptions, ArduinoPort);
        return OkPorts(descriptions, selected);
      } else if action == Some("reconnect") {
        var connected := TestArduino();
        if connected {
          var _ := OnOffArduino(0, deviceCount);
          return OkArduino("Disconnected");
        }
        if port.None? || !IsDigits(port.value) {
          return Error(PortDataError);
        }
        var portNum := DigitsValue(port.value);
        if portNum < deviceCount {
          if portOpens {
            var _ := OnOffArduino(portNum, deviceCount);
            return OkArduino("Connected");
          }
          return Error(ConnectFailed);
        }
        return Error(InvalidPort);
      }
      return Error(ActionDataError);
    }
  }
}
