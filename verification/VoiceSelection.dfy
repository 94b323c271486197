/**
 ttsd_engine_select_valid_voice (server/ttsd_engine_agent.c): which voice of the
 engine serves a request whose language may be "default" and whose type may be 0.
 */
module VoiceSelection {
  import opened Types

  const DEFAULT := "default"

  /** A request for the default language: anything that starts with "default". */
  predicate IsDefault(lang: string) {
    DEFAULT <= lang
  }

  predicate Speaks(v: Voice, lang: string) {
    lang <= v.language
  }

  /** The first voice whose language starts with `lang` and whose type is `kind`. */
  function FirstExact(voices: seq<Voice>, lang: string, kind: int): Option<Voice> {
    if voices == [] then None
    else if Speaks(voices[0], lang) && voices[0].kind == kind then Some(voices[0])
    else FirstExact(voices[1..], lang, kind)
  }

  function LastMatch(voices: seq<Voice>, lang: string): Option<Voice> {
    if voices == [] then None
    else if Speaks(Last(voices), lang) then Some(Last(voices))
    else LastMatch(voices[..|voices| - 1], lang)
  }

  /** A voice of the language, of the wanted type if there is one. */
  function BestMatch(voices: seq<Voice>, lang: string, kind: int): Option<Voice> {
    var exact := FirstExact(voices, lang, kind);
    if exact.Some? then exact else LastMatch(voices, lang)
  }

  function Select(voices: seq<Voice>, dflt: Voice, lang: string, kind: int): Option<Voice> {
    if IsDefault(lang) && kind == 0 then Some(dflt)
    else if voices == [] then None
    else if !IsDefault(lang) && kind != 0 then FirstExact(voices, lang, kind)
    else if !IsDefault(lang) then
      if dflt.language <= lang then Some(dflt) else BestMatch(voices, lang, dflt.kind)
    else if kind == dflt.kind then Some(dflt)
    else
      match BestMatch(voices, dflt.language, kind)
      case None => None
      case Some(v) => Some(if v.kind == kind then v else Voice(Last(voices).language, v.kind))
  }

  lemma {:induction false} FirstExactIs(voices: seq<Voice>, lang: string, kind: int)
    ensures match FirstExact(voices, lang, kind)
            case None => forall v | v in voices :: !(Speaks(v, lang) && v.kind == kind)
            case Some(w) => exists i | 0 <= i < |voices| :: voices[i] == w && Speaks(w, lang) && w.kind == kind
                              && forall j | 0 <= j < i :: !(Speaks(voices[j], lang) && voices[j].kind == kind)
  {
    hide Speaks;
    if voices != [] && !(Speaks(voices[0], lang) && voices[0].kind == kind) {
      var rest := voices[1..];
      FirstExactIs(rest, lang, kind);
      var r := FirstExact(rest, lang, kind);
      if r.Some? {
        var i :| 0 <= i < |rest| && rest[i] == r.value && Speaks(r.value, lang) && r.value.kind == kind
                 && forall j | 0 <= j < i :: !(Speaks(rest[j], lang) && rest[j].kind == kind);
        assert voices[i + 1] == r.value;
        assert forall j | 0 < j < i + 1 :: voices[j] == rest[j - 1];
      } else {
        assert voices == [voices[0]] + rest;
      }
    }
  }

  lemma {:induction false} LastMatchIs(voices: seq<Voice>, lang: string)
    ensures match LastMatch(voices, lang)
            case None => forall v | v in voices :: !Speaks(v, lang)
            case Some(w) => exists i | 0 <= i < |voices| :: voices[i] == w && Speaks(w, lang)
                              && forall j | i < j < |voices| :: !Speaks(voices[j], lang)
  {
    hide Speaks;
    if voices != [] && !Speaks(Last(voices), lang) {
      var n := |voices| - 1;
      var front := voices[..n];
      LastMatchIs(front, lang);
      var r := LastMatch(front, lang);
      if r.Some? {
        var i :| 0 <= i < n && front[i] == r.value && Speaks(r.value, lang)
                 && forall j | i < j < n :: !Speaks(front[j], lang);
        assert voices[i] == r.value;
        forall j | i < j < |voices| ensures !Speaks(voices[j], lang) {
          if j < n { assert voices[j] == front[j]; }
        }
      } else {
        forall v | v in voices ensures !Speaks(v, lang) {
          var j :| 0 <= j < |voices| && voices[j] == v;
          if j < n { assert front[j] == v; }
        }
      }
    }
  }

  /** When a request can be served. */
  predicate Servable(voices: seq<Voice>, dflt: Voice, lang: string, kind: int) {
    if IsDefault(lang) then
      kind == 0 || (voices != [] && (kind == dflt.kind || exists v | v in voices :: Speaks(v, dflt.language)))
    else
      voices != [] &&
      if kind != 0 then exists v | v in voices :: Speaks(v, lang) && v.kind == kind
      else dflt.language <= lang || exists v | v in voices :: Speaks(v, lang)
  }

  /** Voice `i` is the first of this language and type. */
  predicate IsFirst(voices: seq<Voice>, lang: string, kind: int, i: nat) {
    && i < |voices| && lang <= voices[i].language && voices[i].kind == kind
    && forall j | 0 <= j < i :: !(lang <= voices[j].language && voices[j].kind == kind)
  }

  /** Voice `i` is the last of this language. */
  predicate IsLast(voices: seq<Voice>, lang: string, i: nat) {
    i < |voices| && lang <= voices[i].language && forall j | i < j < |voices| :: !(lang <= voices[j].language)
  }

  predicate Listed(voices: seq<Voice>, lang: string, kind: int) {
    exists v | v in voices :: lang <= v.language && v.kind == kind
  }

  predicate Spoken(voices: seq<Voice>, lang: string) {
    exists v | v in voices :: lang <= v.language
  }

  /** The voice for a language, of the given type if the language has one. */
  ghost predicate Preferred(voices: seq<Voice>, lang: string, kind: int, r: Option<Voice>) {
    if Listed(voices, lang, kind) then exists i: nat :: IsFirst(voices, lang, kind, i) && r == Some(voices[i])
    else if Spoken(voices, lang) then exists i: nat :: IsLast(voices, lang, i) && r == Some(voices[i])
    else r == None
  }

  /**
   Which voice is selected.  Language and type default: the default voice, whatever is
   listed.  Both given: the first voice of both.  The type default: the default voice if
   its language is a prefix of the one asked for, or else the first voice of the language
   with the default's type, or else the last of the language.  The language default: the
   default voice if it has the type, or else the first voice of the default's language with
   the type, or else the type of the last voice of that language, in the language of the
   last voice of all.
   */
  lemma SelectExact(voices: seq<Voice>, dflt: Voice, lang: string, kind: int)
    ensures var r := Select(voices, dflt, lang, kind);
            if "default" <= lang && kind == 0 then r == Some(dflt)
            else if voices == [] then r == None
            else if "default" <= lang then
              if kind == dflt.kind then r == Some(dflt)
              else if Listed(voices, dflt.language, kind) then
                exists i: nat :: IsFirst(voices, dflt.language, kind, i) && r == Some(voices[i])
              else if Spoken(voices, dflt.language) then
                exists i: nat :: IsLast(voices, dflt.language, i) && r == Some(Voice(voices[|voices| - 1].language, voices[i].kind))
              else r == None
            else if kind != 0 then
              if Listed(voices, lang, kind) then exists i: nat :: IsFirst(voices, lang, kind, i) && r == Some(voices[i]) else r == None
            else if dflt.language <= lang then r == Some(dflt)
            else Preferred(voices, lang, dflt.kind, r)
  {
    hide IsFirst, IsLast, Listed, Spoken;
    BestIs(voices, lang, kind);
    BestIs(voices, lang, dflt.kind);
    BestIs(voices, dflt.language, kind);
  }

  /** The helpers find what they are named for. */
  lemma BestIs(voices: seq<Voice>, lang: string, kind: int)
    ensures Listed(voices, lang, kind) <==> FirstExact(voices, lang, kind).Some?
    ensures Listed(voices, lang, kind) ==>
              exists i: nat :: IsFirst(voices, lang, kind, i) && FirstExact(voices, lang, kind) == Some(voices[i]) && voices[i].kind == kind
    ensures Spoken(voices, lang) <==> LastMatch(voices, lang).Some?
    ensures Spoken(voices, lang) ==> exists i: nat :: IsLast(voices, lang, i) && LastMatch(voices, lang) == Some(voices[i])
    ensures Spoken(voices, lang) && !Listed(voices, lang, kind) ==> LastMatch(voices, lang).value.kind != kind
    ensures Listed(voices, lang, kind) ==> Spoken(voices, lang)
  {
    FirstExactIs(voices, lang, kind);
    LastMatchIs(voices, lang);
    if Listed(voices, lang, kind) {
      var w := FirstExact(voices, lang, kind).value;
      var i :| 0 <= i < |voices| && voices[i] == w && Speaks(w, lang) && w.kind == kind
               && forall j | 0 <= j < i :: !(Speaks(voices[j], lang) && voices[j].kind == kind);
      assert IsFirst(voices, lang, kind, i);
    }
    if Spoken(voices, lang) {
      var w := LastMatch(voices, lang).value;
      var i :| 0 <= i < |voices| && voices[i] == w && Speaks(w, lang) && forall j | i < j < |voices| :: !Speaks(voices[j], lang);
      assert IsLast(voices, lang, i);
    }
  }

  /**
   The meaning of a selection for the client: it succeeds iff a voice of the right kind
   exists; the result is the default voice or a listed one, of the requested
   language and of the requested type when that exists; and only for a default
   language with a type the language lacks does the language come from the last
   voice of the list instead of the matching one.
   */
  lemma SelectServes(voices: seq<Voice>, dflt: Voice, lang: string, kind: int)
    ensures Select(voices, dflt, lang, kind).Some? <==> Servable(voices, dflt, lang, kind)
    ensures Select(voices, dflt, lang, kind).Some? ==>
              var r := Select(voices, dflt, lang, kind).value;
              var fallback := IsDefault(lang) && kind != 0 && kind != dflt.kind
                              && forall v | v in voices :: !(Speaks(v, dflt.language) && v.kind == kind);
              if fallback then
                r.language == Last(voices).language &&
                exists v | v in voices :: Speaks(v, dflt.language) && v.kind == r.kind
              else
                (r == dflt || r in voices) &&
                (kind != 0 ==> r.kind == kind) &&
                (!IsDefault(lang) ==> Speaks(r, lang) || (r == dflt && r.language <= lang)) &&
                (IsDefault(lang) ==> Speaks(r, dflt.language))
  {
    FirstExactIs(voices, lang, kind);
    FirstExactIs(voices, lang, dflt.kind);
    LastMatchIs(voices, lang);
    FirstExactIs(voices, dflt.language, kind);
    LastMatchIs(voices, dflt.language);
  }

  /** The language of the fallback can differ from the default's: en_US is asked for, and ko_KR is answered. */
  lemma FallbackMixesLanguages()
    ensures var voices := [Voice("en_US", 1), Voice("ko_KR", 2)];
            Select(voices, Voice("en_US", 1), DEFAULT, 3) == Some(Voice("ko_KR", 1))
  {
    var a, b := Voice("en_US", 1), Voice("ko_KR", 2);
    var voices := [a, b];
    FirstExactIs(voices, "en_US", 3);
    LastMatchIs(voices, "en_US");
    assert voices[0] == a && voices[1] == b;
    assert b.language[0] == 'k' && "en_US"[0] == 'e';
    assert Speaks(a, "en_US") && a in voices && !Speaks(b, "en_US");
  }

  /**
   No voice of the list has a language of which the request is a proper extension.
   Language tags are of this kind: "en_US" is never a prefix of another tag.
   */
  predicate NoShorterTag(voices: seq<Voice>, lang: string) {
    forall v | v in voices :: v.language <= lang ==> v.language == lang
  }

  /** Changing the default among the listed voices never takes a served request away. */
  lemma DefaultChangeKeepsServing(voices: seq<Voice>, dflt: Voice, dflt': Voice, lang: string, kind: int)
    requires dflt in voices && dflt' in voices && NoShorterTag(voices, lang)
    requires Select(voices, dflt, lang, kind).Some?
    ensures Select(voices, dflt', lang, kind).Some?
  {
    SelectServes(voices, dflt, lang, kind);
    SelectServes(voices, dflt', lang, kind);
    assert Speaks(dflt', dflt'.language);
    assert Speaks(dflt, dflt.language);
  }

  /**
   For a request without a type, exactly: it survives every change of the default
   iff some voice speaks the language, or every listed language is a prefix of it.
   */
  lemma ServedUnderEveryDefault(voices: seq<Voice>, lang: string)
    requires !IsDefault(lang) && voices != []
    ensures (forall d | d in voices :: Select(voices, d, lang, 0).Some?)
            <==> (exists v | v in voices :: Speaks(v, lang)) || (forall v | v in voices :: v.language <= lang)
  {
    forall d | d in voices ensures Select(voices, d, lang, 0).Some? <==> Servable(voices, d, lang, 0) {
      SelectServes(voices, d, lang, 0);
    }
  }

  /** Will a served request be served whichever listed voice becomes the default? */
  predicate Durable(voices: seq<Voice>, lang: string, kind: int) {
    IsDefault(lang) || kind != 0 || (exists v | v in voices :: Speaks(v, lang)) || (forall v | v in voices :: v.language <= lang)
  }

  /** For any request served under one listed default: it is served under all exactly when it is durable. */
  lemma DurableExactly(voices: seq<Voice>, dflt: Voice, lang: string, kind: int)
    requires dflt in voices && Select(voices, dflt, lang, kind).Some?
    ensures (forall d | d in voices :: Select(voices, d, lang, kind).Some?) <==> Durable(voices, lang, kind)
  {
    SelectServes(voices, dflt, lang, kind);
    forall d | d in voices ensures Select(voices, d, lang, kind).Some? <==> Servable(voices, d, lang, kind) {
      SelectServes(voices, d, lang, kind);
    }
    assert forall d | d in voices :: Speaks(d, d.language);
  }

  /** Without that: a longer tag is admitted through the default's prefix and lost with it. */
  lemma LongerTagIsLost()
    ensures var voices := [Voice("en", 1), Voice("ko", 1)];
            Select(voices, voices[0], "en_US", 0).Some? && Select(voices, voices[1], "en_US", 0).None?
  {
    var voices := [Voice("en", 1), Voice("ko", 1)];
    SelectServes(voices, voices[0], "en_US", 0);
    SelectServes(voices, voices[1], "en_US", 0);
    assert "ko"[0] == 'k' && "en_US"[0] == 'e' && DEFAULT[0] == 'd';
  }

  /** The C function: one pass over the voices for each kind of request. */
  method SelectValidVoice(voices: seq<Voice>, dflt: Voice, lang: string, kind: int) returns (r: Option<Voice>)
    ensures r == Select(voices, dflt, lang, kind)
  {
    if IsDefault(lang) && kind == 0 {
      return Some(dflt);
    }
    if voices == [] {
      return None;
    }
    if !IsDefault(lang) && kind != 0 {
      var i := 0;
      while i < |voices|
        invariant 0 <= i <= |voices|
        invariant FirstExact(voices, lang, kind) == FirstExact(voices[i..], lang, kind)
      {
        if Speaks(voices[i], lang) && voices[i].kind == kind {
          return Some(voices[i]);
        }
        i := i + 1;
      }
      return None;
    } else if !IsDefault(lang) && kind == 0 {
      if dflt.language <= lang {
        return Some(dflt);
      }
      var _, selected := Scan(voices, lang, dflt.kind);
      return selected;
    } else {
      if kind == dflt.kind {
        return Some(dflt);
      }
      var voice, selected := Scan(voices, dflt.language, kind);
      return match selected case None => None case Some(v) => Some(Voice(voice.language, v.kind));
    }
  }

  /** The two search loops: `voice` is where the walk ended, `selected` what it chose. */
  method Scan(voices: seq<Voice>, lang: string, kind: int) returns (voice: Voice, selected: Option<Voice>)
    requires voices != []
    ensures selected == BestMatch(voices, lang, kind)
    ensures voice == if selected.Some? && selected.value.kind == kind then selected.value else Last(voices)
  {
    selected := None;
    voice := voices[0];
    var i := 0;
    while i < |voices|
      invariant 0 <= i <= |voices|
      invariant FirstExact(voices, lang, kind) == FirstExact(voices[i..], lang, kind)
      invariant selected == LastMatch(voices[..i], lang)
      invariant selected.Some? ==> selected.value.kind != kind
      invariant i > 0 ==> voice == voices[i - 1]
    {
      voice := voices[i];
      assert voices[..i + 1][..i] == voices[..i];
      if Speaks(voice, lang) {
        selected := Some(voice);
        if voice.kind == kind {
          return;
        }
      }
      i := i + 1;
    }
    assert voices[..i] == voices;
  }
}
