/**
 * The two directions of the access-level code: the Register form's
 * `accessLevelOptions.find` (label to value,
 * frontend/src/scenes/Register.jsx) and the Team grid's `switch` (value to
 * label, icon and background, frontend/src/scenes/Team.jsx).
 */
module AccessLevels {
  import opened Wrappers

  /** An entry `{ label, value }` of `accessLevelOptions` (`label` is a Dafny keyword, hence `caption`). */
  datatype LevelOption = LevelOption(caption: string, value: int)

  /** `accessLevelOptions`, in the order the form lists them. */
  const Options: seq<LevelOption> := [LevelOption("Admin", 10), LevelOption("Manager", 20), LevelOption("User", 30)]

  /** `options.find(o => o.label === caption)`: the value of the first option with that label. */
  function Find(options: seq<LevelOption>, caption: string): (r: Option<int>)
    ensures r.None? <==> forall i :: 0 <= i < |options| ==> options[i].caption != caption
    ensures r.Some? ==>
              exists i :: 0 <= i < |options| && options[i].caption == caption && options[i].value == r.value &&
                          (forall j :: 0 <= j < i ==> options[j].caption != caption)
  {
    if options == [] then None
    else if options[0].caption == caption then Some(options[0].value)
    else
      var r := Find(options[1..], caption);
      assert forall i :: 0 < i < |options| ==> options[i] == options[1..][i - 1];
      r
  }

  /** The Register form's label-to-value lookup; `None` is the TypeError of reading `.value` of `undefined`. */
  function LevelOf(caption: string): Option<int> {
    Find(Options, caption)
  }

  /** The icon the Team grid shows beside a level. */
  datatype Icon = AdminIcon | ManagerIcon | UserIcon

  /** The Team grid's `switch (accessLevel)`: the label, and the icon if any. */
  function LabelOf(level: Option<int>): (r: (string, Option<Icon>))
    ensures r.0 == "" <==> r.1.None?
  {
    match level
    case Some(10) => ("Admin", Some(AdminIcon))
    case Some(20) => ("Manager", Some(ManagerIcon))
    case Some(30) => ("User", Some(UserIcon))
    case _ => ("", None)
  }

  /** The two background tokens of the access-level cell. */
  datatype Shade = GreenAccent600 | GreenAccent700

  /** `accessLevel === 30 ? greenAccent[600] : greenAccent[700]`. */
  function Background(level: Option<int>): Shade {
    if level == Some(30) then GreenAccent600 else GreenAccent700
  }

  /** The lookup maps exactly the three labels, to 10, 20 and 30. */
  lemma LevelOfTable(caption: string)
    ensures LevelOf(caption) ==
      if caption == "Admin" then Some(10)
      else if caption == "Manager" then Some(20)
      else if caption == "User" then Some(30)
      else None
  {
    assert Options[0].caption == "Admin" && Options[1].caption == "Manager" && Options[2].caption == "User";
  }

  /** The switch names exactly the three values; every other value (or a missing one) gets an empty label and no icon. */
  lemma LabelOfKnownLevels(level: Option<int>)
    ensures LabelOf(level).0 != "" <==> level in {Some(10), Some(20), Some(30)}
  {
  }

  /** Looking a label up and showing the value gives the label back. */
  lemma LabelOfLevelOf(caption: string)
    requires LevelOf(caption).Some?
    ensures LabelOf(LevelOf(caption)).0 == caption
  {
    LevelOfTable(caption);
  }

  /** Showing a known value and looking its label up gives the value back. */
  lemma LevelOfLabelOf(v: int)
    requires v in {10, 20, 30}
    ensures LevelOf(LabelOf(Some(v)).0) == Some(v)
  {
    LevelOfTable(LabelOf(Some(v)).0);
  }

  /** Only level 30 gets the lighter background. */
  lemma BackgroundSplitsUsers(level: Option<int>)
    ensures Background(level) == GreenAccent600 <==> level == Some(30)
  {
  }
}
