/**
 * File system paths as the program builds them: a base directory whose text
 * comes from the environment (the crate's manifest directory, the system temp
 * directory) followed by the components pushed onto it.
 */
module Paths {
  import opened Wrappers
  import Providers

  /** A `PathBuf`: the base text and the components pushed onto it, in order. */
  datatype Path = Path(base: string, parts: seq<string>)

  /**
   * `PathBuf::push` of a relative component onto a path's text: a separator is
   * inserted unless the text is empty or already ends in one.
   */
  function PushText(text: string, component: string): (r: string)
    ensures |text| + |component| <= |r| <= |text| + |component| + 1
    ensures r[..|text|] == text && r[|r| - |component|..] == component
    ensures |r| == |text| + |component| <==> text == [] || text[|text| - 1] == '/'
    ensures |r| > |text| + |component| ==> r[|text|] == '/'
  {
    if text == [] then component
    else if text[|text| - 1] == '/' then text + component
    else text + "/" + component
  }

  /**
   * `to_string_lossy` of a path (its text): the base text, then each component
   * in order, the last one at the very end.
   */
  function Display(p: Path): (r: string)
    ensures |r| >= |p.base| && r[..|p.base|] == p.base
    ensures p.parts != [] ==> EndsWith(r, p.parts[|p.parts| - 1])
    decreases |p.parts|
  {
    if p.parts == [] then p.base
    else PushText(Display(Path(p.base, p.parts[..|p.parts| - 1])), p.parts[|p.parts| - 1])
  }

  /** `PathBuf::join` / `push`: one more component at the end. */
  function Join(p: Path, component: string): (r: Path)
    ensures r.base == p.base && r.parts == p.parts + [component]
    ensures Display(r) == PushText(Display(p), component)
  {
    var r := Path(p.base, p.parts + [component]);
    assert r.parts[..|r.parts| - 1] == p.parts;
    r
  }

  /**
   * `Path::parent`: the path without its last component, or None when there is
   * no component left to strip.
   */
  function Parent(p: Path): (r: Option<Path>)
    ensures r.Some? <==> p.parts != []
    ensures r.Some? ==> Join(r.value, p.parts[|p.parts| - 1]) == p
  {
    if p.parts == [] then None else Some(Path(p.base, p.parts[..|p.parts| - 1]))
  }

  const ManifestDirError := "CARGO_MANIFEST_DIR is not set"

  /**
   * `template_path`: `<manifest>/templates/<provider>/main.tf`. The value of the
   * CARGO_MANIFEST_DIR environment variable is a parameter; None stands for a
   * failed lookup, because the variable is unset or its value is not valid
   * Unicode. Both give the same error message.
   */
  function TemplatePath(manifest: Option<string>, providerStr: string): (r: Result<Path, string>)
    ensures manifest.None? <==> r == Err(ManifestDirError)
    ensures r.Ok? ==> r.value.base == manifest.value
    ensures r.Ok? ==> r.value.parts == ["templates", providerStr, "main.tf"]
  {
    match manifest
    case None => Err(ManifestDirError)
    case Some(m) => Ok(Join(Join(Join(Path(m, []), "templates"), providerStr), "main.tf"))
  }

  /** Every template path has a parent directory, `<manifest>/templates/<provider>`. */
  lemma TemplatePathParent(manifest: string, p: Providers.Provider)
    ensures TemplatePath(Some(manifest), Providers.ProviderString(p)).Ok?
    ensures Parent(TemplatePath(Some(manifest), Providers.ProviderString(p)).value)
         == Some(Path(manifest, ["templates", Providers.ProviderString(p)]))
  {
    var parts := ["templates", Providers.ProviderString(p), "main.tf"];
    assert parts[..|parts| - 1] == ["templates", Providers.ProviderString(p)];
  }

  /** `s` ends in `suffix`. */
  predicate EndsWith(s: string, suffix: string)
  {
    |s| >= |suffix| && s[|s| - |suffix|..] == suffix
  }

  /** The text of every template path ends in `templates/<provider>/main.tf`. */
  lemma TemplatePathSuffix(manifest: string, p: Providers.Provider)
    ensures EndsWith(Display(TemplatePath(Some(manifest), Providers.ProviderString(p)).value),
                     "templates" + "/" + Providers.ProviderString(p) + "/" + "main.tf")
  {
    var ps := Providers.ProviderString(p);
    var t := Join(Path(manifest, []), "templates");
    var a := Display(t);
    assert EndsWith(a, "templates");
    PushAfterSuffix(a, "templates", ps);
    var d := Join(t, ps);
    var b := Display(d);
    assert b == a + "/" + ps;
    EndsWithAppend(a, "templates", "/");
    EndsWithAppend(a + "/", "templates" + "/", ps);
    PushAfterSuffix(b, ps, "main.tf");
    var text := Display(Join(d, "main.tf"));
    assert text == b + "/" + "main.tf";
    EndsWithAppend(b, "templates" + "/" + ps, "/");
    EndsWithAppend(b + "/", "templates" + "/" + ps + "/", "main.tf");
  }

  /** Appending the same text to a string and to its suffix keeps it a suffix. */
  lemma EndsWithAppend(s: string, suffix: string, more: string)
    requires EndsWith(s, suffix)
    ensures EndsWith(s + more, suffix + more)
  {
  }

  /** Pushing onto text that ends in a non-separator character inserts one. */
  lemma PushAfterSuffix(text: string, suffix: string, c: string)
    requires |suffix| > 0 && suffix[|suffix| - 1] != '/'
    requires EndsWith(text, suffix)
    ensures PushText(text, c) == text + "/" + c
  {
  }
}
