/** The app generator wizard (src/pages/Wizard.tsx): the prompt it builds
    from the chosen app type, runtime, name, description and features. */
module Wizard {
  import opened Text
  import opened Lists

  datatype AppType = Cli | Web | Api | Bot

  datatype Runtime = Python | Node | Go

  /** `appType.toUpperCase()`. */
  function AppTypeName(t: AppType): string {
    match t
    case Cli => "CLI"
    case Web => "WEB"
    case Api => "API"
    case Bot => "BOT"
  }

  function RuntimeName(r: Runtime): string {
    match r
    case Python => "python"
    case Node => "node"
    case Go => "go"
  }

  datatype Feature = Feature(id: string, caption: string)

  /** `featuresList`, in the order the page shows it. */
  const FeaturesList: seq<Feature> := [
    Feature("auth", "Auth (basic)"),
    Feature("db", "DB (local/sqlite etc.)"),
    Feature("api", "External API"),
    Feature("tests", "Tests"),
    Feature("lint", "Lint/Format")
  ]

  /** `features[f.id]` is truthy: the checkbox was ticked. */
  predicate Ticked(features: map<string, bool>, f: Feature) {
    f.id in features && features[f.id]
  }

  /** `list.filter(f => features[f.id]).map(f => f.label)`: the captions of
      the ticked features of `list`, in list order. */
  function Picked(list: seq<Feature>, features: map<string, bool>): (r: seq<string>)
    ensures |r| <= |list|
    ensures forall i :: 0 <= i < |list| && Ticked(features, list[i]) ==> list[i].caption in r
  {
    if list == [] then []
    else
      var rest := Picked(list[1..], features);
      assert forall i :: 1 <= i < |list| ==> list[i] == list[1..][i - 1];
      if Ticked(features, list[0]) then [list[0].caption] + rest else rest
  }

  /** The features of two stretches of the list are picked in order. */
  lemma {:induction false} PickedAppend(a: seq<Feature>, b: seq<Feature>, features: map<string, bool>)
    ensures Picked(a + b, features) == Picked(a, features) + Picked(b, features)
    decreases |a|
  {
    if a == [] {
      assert a + b == b;
    } else {
      assert (a + b)[0] == a[0] && (a + b)[1..] == a[1..] + b;
      PickedAppend(a[1..], b, features);
    }
  }

  /** One feature gives its caption exactly when it is ticked. */
  lemma PickedSingle(f: Feature, features: map<string, bool>)
    ensures Picked([f], features) == if Ticked(features, f) then [f.caption] else []
  {
    assert [f][1..] == [];
  }

  /** Every picked caption is the caption of a ticked feature. */
  lemma {:induction false} PickedAreTicked(list: seq<Feature>, features: map<string, bool>, c: string)
    requires c in Picked(list, features)
    ensures exists i :: 0 <= i < |list| && Ticked(features, list[i]) && list[i].caption == c
    decreases |list|
  {
    var rest := Picked(list[1..], features);
    if Ticked(features, list[0]) && c == list[0].caption {
      assert Ticked(features, list[0]) && list[0].caption == c;
    } else {
      assert c in rest;
      PickedAreTicked(list[1..], features, c);
      var i :| 0 <= i < |list[1..]| && Ticked(features, list[1..][i]) && list[1..][i].caption == c;
      assert list[i + 1] == list[1..][i];
    }
  }

  /** With nothing ticked no feature is picked. */
  lemma {:induction false} NothingPicked(list: seq<Feature>)
    ensures Picked(list, map[]) == []
    decreases |list|
  {
    if list != [] {
      NothingPicked(list[1..]);
    }
  }

  /** The first three lines of the prompt. */
  function Header(appType: AppType, runtime: Runtime, name: string): (lines: seq<string>)
    ensures |lines| == 3
    ensures forall k :: 0 <= k < |lines| ==> lines[k] != []
  {
    [ "Mujhe Termux me ek " + AppTypeName(appType) + " app generate karni hai.",
      "Runtime: " + RuntimeName(runtime) + ".",
      "Project name: " + name + "." ]
  }

  /** The fixed list of what the answer must contain. */
  const Footer: seq<string> := [
    "Output required:",
    "1) Folder structure",
    "2) Files content (copy-paste)",
    "3) Exact Termux commands sequence (install, init, run)",
    "4) Verification steps",
    "5) Common errors & fixes"
  ]

  /** The array the page builds, with `""` for a missing description or an
      empty feature list. */
  function Entries(appType: AppType, runtime: Runtime, name: string, desc: string, features: map<string, bool>): seq<string> {
    var picked := Picked(FeaturesList, features);
    Header(appType, runtime, name)
      + [if Trim(desc) != [] then "Description: " + Trim(desc) else ""]
      + [if |picked| > 0 then "Features: " + Join(picked, ", ") else ""]
      + Footer
  }

  predicate NonEmpty(s: string) {
    s != []
  }

  /** `[...].filter(Boolean).join("\n")`. */
  function Prompt(appType: AppType, runtime: Runtime, name: string, desc: string, features: map<string, bool>): string {
    Join(Filter(NonEmpty, Entries(appType, runtime, name, desc, features)), "\n")
  }

  /** The one-element list holding `s`, or nothing for the empty string. */
  function Optional(s: string): seq<string> {
    if s != [] then [s] else []
  }

  /** `filter(Boolean)` keeps fixed lines and drops the empty optional ones. */
  lemma {:induction false} KeepNonEmpty(head: seq<string>, d: string, f: string, tail: seq<string>)
    requires forall k :: 0 <= k < |head| ==> head[k] != []
    requires forall k :: 0 <= k < |tail| ==> tail[k] != []
    ensures Filter(NonEmpty, head + [d] + [f] + tail) == head + Optional(d) + Optional(f) + tail
  {
    FilterAppend(NonEmpty, head + [d] + [f], tail);
    FilterAppend(NonEmpty, head + [d], [f]);
    FilterAppend(NonEmpty, head, [d]);
    FilterSingle(NonEmpty, d);
    FilterSingle(NonEmpty, f);
    FilterKeepsAll(NonEmpty, head);
    FilterKeepsAll(NonEmpty, tail);
  }

  /** The prompt's lines: the header, the description when the trimmed
      description is not empty, the features when one is ticked, and the
      footer. */
  lemma {:induction false} PromptLines(appType: AppType, runtime: Runtime, name: string, desc: string, features: map<string, bool>)
    ensures var picked := Picked(FeaturesList, features);
      Prompt(appType, runtime, name, desc, features) == Join(
        Header(appType, runtime, name)
        + (if Trim(desc) != [] then ["Description: " + Trim(desc)] else [])
        + (if |picked| > 0 then ["Features: " + Join(picked, ", ")] else [])
        + Footer, "\n")
  {
    var picked := Picked(FeaturesList, features);
    var h := Header(appType, runtime, name);
    var d := if Trim(desc) != [] then "Description: " + Trim(desc) else "";
    var f := if |picked| > 0 then "Features: " + Join(picked, ", ") else "";
    assert Entries(appType, runtime, name, desc, features) == h + [d] + [f] + Footer;
    FooterLines();
    KeepNonEmpty(h, d, f, Footer);
    assert Optional(d) == if Trim(desc) != [] then ["Description: " + Trim(desc)] else [];
    assert Optional(f) == if |picked| > 0 then ["Features: " + Join(picked, ", ")] else [];
  }

  lemma FooterLines()
    ensures forall k :: 0 <= k < |Footer| ==> Footer[k] != []
  {
  }

  /** With nothing ticked and no description the prompt is the header and
      the footer only. */
  lemma {:induction false} BarePrompt(appType: AppType, runtime: Runtime, name: string, desc: string)
    requires IsBlank(desc)
    ensures Prompt(appType, runtime, name, desc, map[]) == Join(Header(appType, runtime, name) + Footer, "\n")
  {
    PromptLines(appType, runtime, name, desc, map[]);
    TrimEmptyIffBlank(desc);
    NothingPicked(FeaturesList);
    assert Header(appType, runtime, name) + [] + [] + Footer == Header(appType, runtime, name) + Footer;
  }
}
