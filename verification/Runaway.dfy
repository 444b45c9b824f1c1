/**
 The per-workspace runaway-protection switch, stored inside a user's settings of
 any JSON shape (backend/src/runaway_protection.rs:20-78).
 */
module Runaway {
  import opened Wrappers
  import opened JsonValues

  /** The text of a workspace id: 36 characters, so never the word "default". */
  type Uuid = s: string | |s| == 36 witness seq(36, i => '0')

  const WORKFLOWS := "workflows"
  const SWITCH := "runaway_protection_enabled"
  const DEFAULT := "default"

  function Enabled(settings: Value, workspace: Uuid): bool {
    match settings.GetObject(WORKFLOWS)
    case None => true
    case Some(workflows) => SwitchFor(Object(workflows).Get(SWITCH), workspace)
  }

  /** Reads the stored switch: a bare flag, or flags by workspace with a default. */
  function SwitchFor(entry: Option<Value>, workspace: Uuid): bool {
    match entry
    case Some(Bool(flag)) => flag
    case Some(Object(flags)) =>
      var m := Object(flags);
      if m.GetBool(workspace).Some? then m.GetBool(workspace).value
      else if m.GetBool(DEFAULT).Some? then m.GetBool(DEFAULT).value
      else true
    case _ => true
  }

  /** The switch entry after setting one workspace; a bare flag becomes the default. */
  function EntryWith(entry: Option<Value>, workspace: Uuid, enabled: bool): Value {
    match entry
    case Some(Object(m)) => Object(m[workspace := Bool(enabled)])
    case Some(Bool(previous)) => Object(map[DEFAULT := Bool(previous)][workspace := Bool(enabled)])
    case _ => Object(map[workspace := Bool(enabled)])
  }

  function Fields(v: Option<Value>): map<string, Value> {
    match v case Some(Object(m)) => m case _ => map[]
  }

  function With(settings: Value, workspace: Uuid, enabled: bool): Value {
    var obj := Fields(Some(settings));
    var workflows := Fields(Object(obj).Get(WORKFLOWS));
    var entry := EntryWith(Object(workflows).Get(SWITCH), workspace, enabled);
    Object(obj[WORKFLOWS := Object(workflows[SWITCH := entry])])
  }

  class Settings {
    var value: Value

    constructor (value: Value)
      ensures this.value == value
    {
      this.value := value;
    }

    /** Coerces each level to an object, then edits the entry in place. */
    method SetEnabled(workspace: Uuid, enabled: bool)
      modifies this
      ensures value == With(old(value), workspace, enabled)
    {
      if !value.Object? {
        value := Object(map[]);
      }
      var obj := value.fields;
      var workflows := if WORKFLOWS in obj then obj[WORKFLOWS] else Object(map[]);
      if !workflows.Object? {
        workflows := Object(map[]);
      }
      var entry := if SWITCH in workflows.fields then workflows.fields[SWITCH] else Object(map[]);
      match entry {
        case Object(m) => entry := Object(m[workspace := Bool(enabled)]);
        case Bool(previous) => entry := Object(map[DEFAULT := Bool(previous)][workspace := Bool(enabled)]);
        case _ => entry := Object(map[workspace := Bool(enabled)]);
      }
      value := Object(obj[WORKFLOWS := Object(workflows.fields[SWITCH := entry])]);
    }
  }

  lemma WithReads(settings: Value, workspace: Uuid, enabled: bool, w: Uuid)
    ensures
      var entry := Object(Fields(Object(Fields(Some(settings))).Get(WORKFLOWS))).Get(SWITCH);
      Enabled(With(settings, workspace, enabled), w) == SwitchFor(Some(EntryWith(entry, workspace, enabled)), w)
      && Enabled(settings, w) == SwitchFor(entry, w)
  {
  }

  /** Get after set returns what was set, whatever shape the settings had. */
  lemma GetAfterSet(settings: Value, w: Uuid, enabled: bool)
    ensures Enabled(With(settings, w, enabled), w) == enabled
  {
  }

  /** Setting one workspace never changes the answer for another. */
  lemma OthersUntouched(settings: Value, w: Uuid, enabled: bool, other: Uuid)
    requires other != w
    ensures Enabled(With(settings, w, enabled), other) == Enabled(settings, other)
  {
    WithReads(settings, w, enabled, other);
    assert DEFAULT != w;
  }

  lemma EntryTwice(entry: Option<Value>, w: Uuid, a: bool, b: bool)
    ensures EntryWith(Some(EntryWith(entry, w, a)), w, b) == EntryWith(entry, w, b)
  {
  }

  lemma EntryCommutes(entry: Option<Value>, v: Uuid, a: bool, w: Uuid, b: bool)
    requires v != w
    ensures EntryWith(Some(EntryWith(entry, v, a)), w, b) == EntryWith(Some(EntryWith(entry, w, b)), v, a)
  {
  }

  /** Two edits, seen at the level of the entry. */
  lemma WithTwice(settings: Value, v: Uuid, a: bool, w: Uuid, b: bool)
    ensures
      var obj := Fields(Some(settings));
      var workflows := Fields(Object(obj).Get(WORKFLOWS));
      var entry := EntryWith(Some(EntryWith(Object(workflows).Get(SWITCH), v, a)), w, b);
      With(With(settings, v, a), w, b) == Object(obj[WORKFLOWS := Object(workflows[SWITCH := entry])])
  {
    var obj := Fields(Some(settings));
    var workflows := Fields(Object(obj).Get(WORKFLOWS));
    var first := EntryWith(Object(workflows).Get(SWITCH), v, a);
    var second := EntryWith(Some(first), w, b);
    var x, y := workflows[SWITCH := first], workflows[SWITCH := second];
    assert x[SWITCH := second] == y;
    assert obj[WORKFLOWS := Object(x)][WORKFLOWS := Object(y)] == obj[WORKFLOWS := Object(y)];
  }

  /** The second of two sets for one workspace wins, leaving no trace of the first. */
  lemma LastSetWins(settings: Value, w: Uuid, a: bool, b: bool)
    ensures With(With(settings, w, a), w, b) == With(settings, w, b)
  {
    WithTwice(settings, w, a, w, b);
    EntryTwice(Object(Fields(Object(Fields(Some(settings))).Get(WORKFLOWS))).Get(SWITCH), w, a, b);
  }

  /** Sets for distinct workspaces commute. */
  lemma SetsCommute(settings: Value, v: Uuid, a: bool, w: Uuid, b: bool)
    requires v != w
    ensures With(With(settings, v, a), w, b) == With(With(settings, w, b), v, a)
  {
    WithTwice(settings, v, a, w, b);
    WithTwice(settings, w, b, v, a);
    EntryCommutes(Object(Fields(Object(Fields(Some(settings))).Get(WORKFLOWS))).Get(SWITCH), v, a, w, b);
  }

  // ---- What settings mean ----

  /** Settings with this entry for the switch. */
  function Switched(others: map<string, Value>, workflows: map<string, Value>, entry: Value): Value {
    Object(others["workflows" := Object(workflows["runaway_protection_enabled" := entry])])
  }

  /** A bare flag holds for every workspace; flags by workspace hold for theirs, and "default" for the others. */
  lemma WhatSettingsMean(
      others: map<string, Value>, workflows: map<string, Value>, flag: bool, flags: map<string, Value>, w: Uuid)
    ensures Enabled(Switched(others, workflows, Bool(flag)), w) == flag
    ensures
      Enabled(Switched(others, workflows, Object(flags)), w)
      == if w in flags && flags[w].Bool? then flags[w].flag
         else if "default" in flags && flags["default"].Bool? then flags["default"].flag
         else true
  {
  }

  /** Protection is on when the settings say nothing, or nothing sensible, about it. */
  lemma OnUnlessSwitchedOff(settings: Value, w: Uuid)
    requires
      settings.Object? && "workflows" in settings.fields && settings.fields["workflows"].Object?
      && "runaway_protection_enabled" in settings.fields["workflows"].fields ==>
        var entry := settings.fields["workflows"].fields["runaway_protection_enabled"];
        !entry.Bool? && !entry.Object?
    ensures Enabled(settings, w)
  {
  }

  /** Setting a workspace leaves all other settings alone. */
  lemma OtherSettingsStay(settings: Value, w: Uuid, enabled: bool, key: string, inner: string)
    requires settings.Object? && key != "workflows" && inner != "runaway_protection_enabled"
    ensures
      var r := With(settings, w, enabled);
      && r.Object? && (key in r.fields <==> key in settings.fields) && (key in r.fields ==> r.fields[key] == settings.fields[key])
      && "workflows" in r.fields && r.fields["workflows"].Object?
      && ("workflows" in settings.fields && settings.fields["workflows"].Object? ==>
            var before, after := settings.fields["workflows"].fields, r.fields["workflows"].fields;
            (inner in after <==> inner in before) && (inner in after ==> after[inner] == before[inner]))
  {
  }
}
