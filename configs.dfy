/** The file name rule of the /files/save handler (app.go:97-113). */
module Configs {
  import opened Wrappers
  import opened Http

  const TomlSuffix := ".toml"

  /** strings.HasSuffix */
  predicate HasSuffix(s: string, suffix: string)
  {
    |suffix| <= |s| && s[|s| - |suffix|..] == suffix
  }

  /** The name a configuration is saved under: `.toml` is appended unless the name already ends with it. */
  function ConfigFileName(name: string): (r: string)
    ensures HasSuffix(r, TomlSuffix)
    ensures HasSuffix(name, TomlSuffix) ==> r == name
    ensures !HasSuffix(name, TomlSuffix) ==> |r| == |name| + |TomlSuffix| && r[..|name|] == name
  {
    if HasSuffix(name, TomlSuffix) then name else name + TomlSuffix
  }

  /** Normalising a name a second time changes nothing. */
  lemma ConfigFileNameIdempotent(name: string)
    ensures ConfigFileName(ConfigFileName(name)) == ConfigFileName(name)
  {
  }

  /** A name is kept as it is exactly when it already ends with `.toml`. */
  lemma ConfigFileNameFixedPoints(name: string)
    ensures ConfigFileName(name) == name <==> HasSuffix(name, TomlSuffix)
  {
    if !HasSuffix(name, TomlSuffix) {
      assert |ConfigFileName(name)| != |name|;
    }
  }

  /** What one save does: the file it writes under the configs directory, what it writes, and the reply. */
  datatype Save = Save(file: string, content: string, response: Response)

  /** The /files/save handler; `writeErr` is what os.WriteFile returned. */
  function SaveConfig(name: string, content: string, writeErr: Option<string>): (r: Save)
    ensures r.file == ConfigFileName(name) && r.content == content
    ensures HasSuffix(r.file, TomlSuffix)
    ensures r.response.status == StatusOK <==> writeErr.None?
    ensures writeErr.None? ==> r.response == Response(StatusOK, Message("File saved successfully"))
    ensures writeErr.Some? ==> r.response == Response(StatusInternalServerError, Error(writeErr.value))
  {
    var file := ConfigFileName(name);
    if writeErr.Some? then Save(file, content, Response(StatusInternalServerError, Error(writeErr.value)))
    else Save(file, content, Response(StatusOK, Message("File saved successfully")))
  }
}
