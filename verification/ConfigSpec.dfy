/**
 The three-line configuration file of server/ttsd_config.c: its printer, and its
 parser as a run of the C library's scanner over the text.
 */
module ConfigSpec {
  import opened Types

  const ENGINE_ID := "ENGINE_ID"
  const VOICE := "VOICE"
  const SPEED := "SPEED"

  /** The stored settings; a string that was never set is None. */
  datatype Config = Config(engineId: Option<string>, language: Option<string>, kind: int, speed: int)

  const Blank := Config(None, None, 1, 3)

  // ----- printing

  function Digits(n: nat): (r: string)
    ensures r != []
  {
    var d := ['0', '1', '2', '3', '4', '5', '6', '7', '8', '9'][n % 10];
    if n < 10 then [d] else Digits(n / 10) + [d]
  }

  function PrintInt(n: int): string {
    if n < 0 then "-" + Digits(-n) else Digits(n)
  }

  /** What "%s" prints for a string, the null one included. */
  function PrintStr(s: Option<string>): string {
    match s case None => "(null)" case Some(w) => w
  }

  /** Three lines that begin with these words; the last one goes on with `tail`. */
  function Lines(k1: string, k2: string, k3: string, c: Config, tail: string): string {
    k1 + (" " + (PrintStr(c.engineId) + ("\n" + (
      k2 + (" " + (PrintStr(c.language) + (" " + (PrintInt(c.kind) + ("\n" + (
        k3 + (" " + tail)))))))))))
  }

  function Print(c: Config): string {
    Lines(ENGINE_ID, VOICE, SPEED, c, PrintInt(c.speed) + "\n")
  }

  // ----- scanning

  predicate IsSpace(c: char) {
    c == ' ' || c == '\n' || c == '\t' || c == '\r' || c == 11 as char || c == 12 as char
  }

  predicate IsDigit(c: char) {
    '0' <= c <= '9'
  }

  function SkipSpace(s: string): (r: string)
    ensures |r| <= |s|
    ensures r != [] ==> !IsSpace(r[0])
  {
    if s != [] && IsSpace(s[0]) then SkipSpace(s[1..]) else s
  }

  /** The longest prefix without white space, and what follows it. */
  function SplitWord(s: string): (r: (string, string))
    ensures s == r.0 + r.1
    ensures r.1 != [] ==> IsSpace(r.1[0])
    ensures forall c | c in r.0 :: !IsSpace(c)
  {
    if s == [] || IsSpace(s[0]) then ([], s)
    else
      var (w, rest) := SplitWord(s[1..]);
      ([s[0]] + w, rest)
  }

  /** "%s": None at the end of the input. */
  function ScanWord(s: string): (Option<string>, string) {
    var (w, rest) := SplitWord(SkipSpace(s));
    if w == [] then (None, rest) else (Some(w), rest)
  }

  function ScanDigits(s: string, acc: int): (int, string) {
    if s != [] && IsDigit(s[0]) then ScanDigits(s[1..], 10 * acc + (s[0] as int - '0' as int)) else (acc, s)
  }

  /** "%d": an optional sign and at least one digit. */
  function ScanInt(s: string): (Option<int>, string) {
    var t := SkipSpace(s);
    var negative := t != [] && t[0] == '-';
    var u := if t != [] && (t[0] == '-' || t[0] == '+') then t[1..] else t;
    if u == [] || !IsDigit(u[0]) then (None, u)
    else
      var (n, rest) := ScanDigits(u, 0);
      (Some(if negative then -n else n), rest)
  }

  /** The scanner's buffers, which keep their contents from one line to the next. */
  datatype Buffers = Buffers(id: string, param: string, number: int, rest: string)

  function ReadWord(b: Buffers): (Buffers, bool) {
    var (w, rest) := ScanWord(b.rest);
    (b.(rest := rest, id := w.GetOr(b.id)), w.Some?)
  }

  function ReadParam(b: Buffers): (Buffers, bool) {
    var (w, rest) := ScanWord(b.rest);
    (b.(rest := rest, param := w.GetOr(b.param)), w.Some?)
  }

  function ReadNumber(b: Buffers): (Buffers, bool) {
    var (n, rest) := ScanInt(b.rest);
    (b.(rest := rest, number := n.GetOr(b.number)), n.Some?)
  }

  /** "%s %s": a conversion that fails ends the line's scan. */
  function ScanEngine(b: Buffers): Buffers {
    var (b1, ok) := ReadWord(b);
    if ok then ReadParam(b1).0 else b1
  }

  /** "%s %s %d" */
  function ScanVoice(b: Buffers): Buffers {
    var (b1, ok1) := ReadWord(b);
    if !ok1 then b1 else
    var (b2, ok2) := ReadParam(b1);
    if ok2 then ReadNumber(b2).0 else b2
  }

  /** "%s %d" */
  function ScanSpeed(b: Buffers): Buffers {
    var (b1, ok) := ReadWord(b);
    if ok then ReadNumber(b1).0 else b1
  }

  /** Reading a file over the settings `c`; false when a line does not start with its keyword. */
  function Parse(text: string, c: Config): (Config, bool) {
    var b1 := ScanEngine(Buffers("", "", 0, text));
    if !(ENGINE_ID <= b1.id) then (c, false) else
    var c1 := c.(engineId := Some(b1.param));
    var b2 := ScanVoice(b1);
    if !(VOICE <= b2.id) then (c1, false) else
    var c2 := c1.(language := Some(b2.param), kind := b2.number);
    var b3 := ScanSpeed(b2);
    if !(SPEED <= b3.id) then (c2, false) else
    (c2.(speed := b3.number), true)
  }

  // ----- the round trip

  /** A string that "%s" reads back into one of the source's 256-byte buffers. */
  predicate Storable(s: Option<string>) {
    s.Some? && 0 < |s.value| <= 255 && forall c | c in s.value :: !IsSpace(c)
  }

  predicate IsInt32(n: int) {
    -0x8000_0000 <= n < 0x8000_0000
  }

  predicate WellFormed(c: Config) {
    Storable(c.engineId) && Storable(c.language) && IsInt32(c.kind) && IsInt32(c.speed)
  }

  lemma {:induction false} SplitWordOf(w: string, rest: string)
    requires forall c | c in w :: !IsSpace(c)
    requires rest != [] ==> IsSpace(rest[0])
    ensures SplitWord(w + rest) == (w, rest)
  {
    if w == [] {
      assert w + rest == rest;
    } else {
      assert (w + rest)[1..] == w[1..] + rest && (w + rest)[0] == w[0];
      assert w[0] in w;
      SplitWordOf(w[1..], rest);
      assert [w[0]] + w[1..] == w;
    }
  }

  /** A word is read back up to the separator, with or without a separator in front. */
  lemma ScanWordOf(gap: string, w: string, rest: string)
    requires gap == "" || gap == " " || gap == "\n"
    requires w != [] && forall c | c in w :: !IsSpace(c)
    requires rest != [] ==> IsSpace(rest[0])
    ensures ScanWord(gap + (w + rest)) == (Some(w), rest)
  {
    var s := gap + (w + rest);
    if gap == "" {
      assert s == w + rest;
    } else {
      assert s[1..] == w + rest;
    }
    assert (w + rest)[0] == w[0] && w[0] in w;
    assert SkipSpace(s) == w + rest;
    SplitWordOf(w, rest);
  }

  lemma {:induction false} ScanDigitsOf(n: nat, rest: string)
    ensures ScanDigits(Digits(n) + rest, 0) == ScanDigits(rest, n)
    ensures IsDigit(Digits(n)[0])
  {
    var d := ['0', '1', '2', '3', '4', '5', '6', '7', '8', '9'][n % 10];
    if n < 10 {
      assert ([d] + rest)[1..] == rest;
    } else {
      assert Digits(n) + rest == Digits(n / 10) + ([d] + rest);
      ScanDigitsOf(n / 10, [d] + rest);
      assert ([d] + rest)[1..] == rest;
    }
  }

  /** Every integer is read back, the negative ones included. */
  lemma ScanIntOf(n: int, rest: string)
    requires rest != [] ==> !IsDigit(rest[0])
    ensures ScanInt(" " + (PrintInt(n) + rest)) == (Some(n), rest)
  {
    hide Digits;
    var s := " " + (PrintInt(n) + rest);
    var m := if n < 0 then -n else n;
    var u := Digits(m) + rest;
    ScanDigitsOf(m, rest);
    assert ScanDigits(u, 0) == (m, rest) && IsDigit(u[0]);
    var t := PrintInt(n) + rest;
    assert t == if n < 0 then "-" + u else u;
    SkipOneSpace(t);
    if n < 0 {
      assert t[1..] == u;
    }
  }

  lemma SkipOneSpace(t: string)
    requires t != [] && !IsSpace(t[0])
    ensures SkipSpace(" " + t) == t
  {
    assert (" " + t)[1..] == t;
  }

  /** Reading what was written gives back every setting, whatever was in memory before. */
  lemma RoundTrip(c: Config, before: Config)
    requires WellFormed(c)
    ensures Parse(Print(c), before) == (c, true)
  {
    ScanIntOf(c.speed, "\n");
    ParseLines(ENGINE_ID, VOICE, SPEED, c, before, PrintInt(c.speed) + "\n");
  }

  predicate IsWord(w: string) {
    w != [] && forall c | c in w :: !IsSpace(c)
  }

  /**
   The parser on three lines that begin with any words.  A word that only starts with the
   keyword will do.  The first line that does not begin so ends the reading: what the lines
   before it said is kept, the rest stays as it was.  A speed that is missing is the voice type.
   */
  lemma ParseLines(k1: string, k2: string, k3: string, c: Config, before: Config, tail: string)
    requires WellFormed(c) && IsWord(k1) && IsWord(k2) && IsWord(k3)
    ensures Parse(Lines(k1, k2, k3, c, tail), before) ==
            if !("ENGINE_ID" <= k1) then (before, false)
            else if !("VOICE" <= k2) then (before.(engineId := c.engineId), false)
            else if !("SPEED" <= k3) then (c.(speed := before.speed), false)
            else (c.(speed := ScanInt(" " + tail).0.GetOr(c.kind)), true)
  {
    var t3 := " " + tail;
    var t2 := "\n" + (k3 + t3);
    var t1 := "\n" + (k2 + (" " + (PrintStr(c.language) + (" " + (PrintInt(c.kind) + t2)))));
    ScanEngineOf(k1, PrintStr(c.engineId), t1);
    ScanVoiceOf(k2, Buffers(k1, PrintStr(c.engineId), 0, t1), PrintStr(c.language), c.kind, t2);
    ScanSpeedOf(k3, Buffers(k2, PrintStr(c.language), c.kind, t2), tail);
  }

  /** A file that ends early is noticed: the keyword of the line before is still in the buffer. */
  lemma ShortFile(c: Config, before: Config)
    requires WellFormed(c)
    ensures Parse("", before) == (before, false)
    ensures Parse(ENGINE_ID + (" " + (PrintStr(c.engineId) + "\n")), before) == (before.(engineId := c.engineId), false)
    ensures Parse(ENGINE_ID + (" " + (PrintStr(c.engineId) + ("\n" + (VOICE + (" " + (PrintStr(c.language) +
                  (" " + (PrintInt(c.kind) + "\n")))))))), before) == (c.(speed := before.speed), false)
  {
    hide ScanEngine, ScanVoice, ScanSpeed;
    var t1 := "\n" + (VOICE + (" " + (PrintStr(c.language) + (" " + (PrintInt(c.kind) + "\n")))));
    EndOfFile();
    ScanEngineOf(ENGINE_ID, PrintStr(c.engineId), "\n");
    ScanEngineOf(ENGINE_ID, PrintStr(c.engineId), t1);
    ScanVoiceOf(VOICE, Buffers(ENGINE_ID, PrintStr(c.engineId), 0, t1), PrintStr(c.language), c.kind, "\n");
  }

  lemma EndOfFile()
    ensures ScanEngine(Buffers("", "", 0, "")).id == ""
    ensures forall b: Buffers | b.rest == "\n" :: ScanVoice(b).id == b.id && ScanSpeed(b).id == b.id
    ensures !(VOICE <= ENGINE_ID) && !(SPEED <= VOICE) && !(ENGINE_ID <= "")
  {
    assert SkipSpace("\n") == SkipSpace("\n"[1..]) == "";
    assert VOICE[0] != ENGINE_ID[0] && SPEED[0] != VOICE[0];
  }

  lemma ScanEngineOf(w: string, id: string, rest: string)
    requires IsWord(w) && Storable(Some(id)) && rest != [] && IsSpace(rest[0])
    ensures ScanEngine(Buffers("", "", 0, w + (" " + (id + rest)))) == Buffers(w, id, 0, rest)
  {
    var tail := " " + (id + rest);
    assert "" + (w + tail) == w + tail;
    ScanWordOf("", w, tail);
    ScanWordOf(" ", id, rest);
  }

  lemma ScanVoiceOf(w: string, b: Buffers, lang: string, kind: int, rest: string)
    requires IsWord(w) && Storable(Some(lang)) && rest != [] && IsSpace(rest[0])
    requires b.rest == "\n" + (w + (" " + (lang + (" " + (PrintInt(kind) + rest)))))
    ensures ScanVoice(b) == Buffers(w, lang, kind, rest)
  {
    var number := " " + (PrintInt(kind) + rest);
    ScanWordOf("\n", w, " " + (lang + number));
    ScanWordOf(" ", lang, number);
    ScanIntOf(kind, rest);
  }

  lemma ScanSpeedOf(w: string, b: Buffers, tail: string)
    requires IsWord(w) && b.rest == "\n" + (w + (" " + tail))
    ensures ScanSpeed(b).id == w && ScanSpeed(b).number == ScanInt(" " + tail).0.GetOr(b.number)
  {
    ScanWordOf("\n", w, " " + tail);
  }

  /**
   The parser does not notice a SPEED line without a number: the buffer still holds
   the voice type, which becomes the speed.
   */
  lemma MissingSpeedReadsVoiceType(c: Config, before: Config, tail: string)
    requires WellFormed(c) && ScanInt(" " + tail).0 == None
    ensures Parse(Lines(ENGINE_ID, VOICE, SPEED, c, tail), before) == (c.(speed := c.kind), true)
  {
    ParseLines(ENGINE_ID, VOICE, SPEED, c, before, tail);
  }
}
