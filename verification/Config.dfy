/** server/ttsd_config.c: the settings in memory and their file, rewritten at every change. */
module ConfigFile {
  import opened Types
  import opened ConfigSpec

  class ConfigStore {
    var engineId: Option<string>
    var language: Option<string>
    var vcType: int
    var speed: int
    var file: Option<string>           // None: the file cannot be opened
    const defaultFile: Option<string>  // the read-only file shipped with the daemon

    ghost function Value(): Config
      reads this
    {
      Config(engineId, language, vcType, speed)
    }

    /** The file says what memory says. */
    ghost predicate Saved()
      reads this
    {
      file == Some(Print(Value()))
    }

    constructor (file: Option<string>, defaultFile: Option<string>)
      ensures Value() == Blank && this.file == file && this.defaultFile == defaultFile
    {
      this.file, this.defaultFile := file, defaultFile;
      engineId, language, vcType, speed := None, None, 1, 3;
    }

    method Save()
      modifies this`file
      ensures Saved()
    {
      file := Some(Print(Config(engineId, language, vcType, speed)));
    }

    /** Settings read before the first bad line are kept; a bad file is overwritten. */
    method Load() returns (ok: bool)
      modifies this
      ensures var text := if old(file).Some? then old(file) else defaultFile;
              if text.None? then !ok && Value() == old(Value()) && Saved()
              else (Value(), ok) == Parse(text.value, old(Value())) && (if ok then file == old(file) else Saved())
    {
      var text := if file.Some? then file else defaultFile;
      if text.None? {
        Save();
        return false;
      }
      var b := ScanEngine(Buffers("", "", 0, text.value));
      if ENGINE_ID <= b.id {
        engineId := Some(b.param);
      } else {
        Save();
        return false;
      }
      b := ScanVoice(b);
      if VOICE <= b.id {
        language := Some(b.param);
        vcType := b.number;
      } else {
        Save();
        return false;
      }
      b := ScanSpeed(b);
      if SPEED <= b.id {
        speed := b.number;
      } else {
        Save();
        return false;
      }
      return true;
    }

    /** Start-up.  A file this program wrote restores the settings it was written from. */
    method Initialize()
      modifies this
      ensures forall c | WellFormed(c) && old(file) == Some(Print(c)) :: Value() == c && Saved()
    {
      engineId, language, vcType, speed := None, None, 1, 3;
      var ok := Load();
      forall c | WellFormed(c) && old(file) == Some(Print(c)) ensures Value() == c && Saved() {
        RoundTrip(c, Blank);
      }
    }

    method SetDefaultEngine(id: string)
      modifies this
      ensures Value() == old(Value()).(engineId := Some(id)) && Saved()
    {
      engineId := Some(id);
      Save();
    }

    method SetDefaultVoice(lang: string, kind: int)
      modifies this
      ensures Value() == old(Value()).(language := Some(lang), kind := kind) && Saved()
    {
      language := Some(lang);
      vcType := kind;
      Save();
    }

    method SetDefaultSpeed(s: int)
      modifies this
      ensures Value() == old(Value()).(speed := s) && Saved()
    {
      speed := s;
      Save();
    }
  }
}
