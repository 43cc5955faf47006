/** The key-binding table of the qtile configuration: 36 literal bindings,
    then two generated bindings per group "1".."9". */
module Keybindings {

  import opened Wrappers

  /** The modifier names the bindings use; `Mod4` ("mod4", the Super key)
      is the configuration's MOD. */
  datatype Modifier = Mod4 | Shift | Control

  const MOD := Mod4
  const SHIFT := Shift
  const CONTROL := Control

  // Shell commands that the launcher bindings spawn.
  const BROWSER := "librewolf"
  const ROFI_DRUN := "rofi -show drun -show-icons"
  const EMOJI := "rofi -show emoji"
  const FILE_MANAGER := "thunar"
  const FULL_SCREENSHOT := "sh -c 'maim | xclip -selection clipboard -t image/png'"
  const DMENU := "dmenu_run"
  const ROFI_RUN := "rofi -show run -show-icons"
  const SCREENSHOT := "sh -c 'maim -s -u | xclip -selection clipboard -t image/png'"
  const TERM := "kitty"
  const RAISE_VOL := "pamixer -i5"
  const LOWER_VOL := "pamixer -d5"
  const TOGGLE_MUTE := "pamixer -t"
  const RAISE_BR := "brightnessctl s 5%+"
  const LOWER_BR := "brightnessctl s 5%-"

  /** What a binding asks the window manager to do. The commands themselves
      belong to the window manager, so they are kept as opaque tags: a
      lazy call by its dotted name, a spawned shell command, or one of the
      two group commands the generated bindings use. */
  datatype Action =
    | Lazy(call: string)
    | Spawn(command: string)
    | GroupToScreen(group: string)
    | WindowToGroup(group: string, switchGroup: bool)

  /** One `Key(modifiers, key, action, desc = ...)`; `desc` is None where the
      binding gives no description. */
  datatype Key = Key(modifiers: seq<Modifier>, key: string, action: Action, desc: Option<string>)

  datatype Group = Group(name: string)

  /** The modifiers of a binding as the window manager compares them: it
      ORs them into one mask, so their order and repetition do not matter. */
  function ModifierSet(mods: seq<Modifier>): set<Modifier> {
    set m | m in mods
  }

  /** The (modifier set, key name) pair a binding is triggered by. */
  function Chord(k: Key): (set<Modifier>, string) {
    (ModifierSet(k.modifiers), k.key)
  }

  /** The chord as it is written: the modifier list in order, and the key. */
  function WrittenChord(k: Key): (seq<Modifier>, string) {
    (k.modifiers, k.key)
  }

  /** The modifier lists the configuration writes, each in one fixed order. */
  predicate UsualModifiers(mods: seq<Modifier>) {
    mods == [] || mods == [MOD] || mods == [MOD, SHIFT] || mods == [MOD, CONTROL]
  }

  /** No two bindings of the table share a chord. */
  predicate DistinctChords(keys: seq<Key>) {
    forall i, j :: 0 <= i < j < |keys| ==> Chord(keys[i]) != Chord(keys[j])
  }

  /** The literal bindings, in the order they are written. */
  function StaticKeys(): (keys: seq<Key>)
    ensures |keys| == 36
  {
    [
      // Window switching
      Key([MOD], "h", Lazy("layout.left"), Some("Move focus to left")),
      Key([MOD], "l", Lazy("layout.right"), Some("Move focus to right")),
      Key([MOD], "j", Lazy("layout.down"), Some("Move focus down")),
      Key([MOD], "k", Lazy("layout.up"), Some("Move focus up")),
      Key([MOD], "space", Lazy("layout.next"), Some("Move window focus to other window")),
      Key([MOD, SHIFT], "h", Lazy("layout.shuffle_left"), Some("Move window to the left")),
      Key([MOD, SHIFT], "l", Lazy("layout.shuffle_right"), Some("Move window to the right")),
      Key([MOD, SHIFT], "j", Lazy("layout.shuffle_down"), Some("Move window down")),
      Key([MOD, SHIFT], "k", Lazy("layout.shuffle_up"), Some("Move window up")),
      Key([MOD, CONTROL], "h", Lazy("layout.grow_left"), Some("Grow window to the left")),
      Key([MOD, CONTROL], "l", Lazy("layout.grow_right"), Some("Grow window to the right")),
      Key([MOD, CONTROL], "j", Lazy("layout.grow_down"), Some("Grow window down")),
      Key([MOD, CONTROL], "k", Lazy("layout.grow_up"), Some("Grow window up")),
      Key([MOD], "n", Lazy("layout.normalize"), Some("Reset all window sizes")),
      Key([MOD, CONTROL], "Return", Lazy("layout.toggle_split"),
          Some("Toggle between split and unsplit sides of stack")),
      // Menus
      Key([MOD], "p", Spawn(DMENU), Some("Launch dmenu")),
      Key([MOD, SHIFT], "d", Spawn(ROFI_DRUN), None),
      Key([MOD, CONTROL], "d", Spawn(ROFI_RUN), None),
      Key([MOD], "period", Spawn(EMOJI), None),
      // Layouts
      Key([MOD, SHIFT], "e", Lazy("shutdown"), Some("Shutdown Qtile")),
      Key([MOD, SHIFT], "f", Lazy("window.toggle_fullscreen"), None),
      Key([MOD, SHIFT], "q", Lazy("window.kill"), Some("Kill focused window")),
      Key([MOD, SHIFT], "r", Lazy("reload_config"), Some("Reload the config")),
      Key([MOD, SHIFT], "space", Lazy("window.toggle_floating"), None),
      Key([MOD], "r", Lazy("spawncmd"), Some("Spawn a command using a prompt widget")),
      Key([MOD], "Tab", Lazy("next_layout"), Some("Toggle between layouts")),
      // Screenshots
      Key([MOD, SHIFT], "s", Spawn(SCREENSHOT), Some("Take a selected screenshot")),
      Key([MOD, SHIFT], "z", Spawn(FULL_SCREENSHOT), Some("Take a full screenshot")),
      // Utilities
      Key([MOD, SHIFT], "Return", Spawn(FILE_MANAGER), Some("Launch file browser")),
      Key([MOD], "f", Spawn(BROWSER), Some("Launch the web browser")),
      Key([MOD], "Return", Spawn(TERM), Some("Launch terminal")),
      Key([], "XF86AudioLowerVolume", Spawn(LOWER_VOL), None),
      Key([], "XF86AudioMute", Spawn(TOGGLE_MUTE), None),
      Key([], "XF86AudioRaiseVolume", Spawn(RAISE_VOL), None),
      Key([], "XF86MonBrightnessDown", Spawn(LOWER_BR), None),
      Key([], "XF86MonBrightnessUp", Spawn(RAISE_BR), None)
    ]
  }

  /** `[Group(i) for i in "123456789"]`: the nine desktops, the digits
      "1".."9" in order. */
  function Groups(): (groups: seq<Group>)
    ensures |groups| == 9
    ensures forall d :: 0 <= d < 9 ==> groups[d].name == DigitName(d)
  {
    var s := "123456789";
    assert forall d :: 0 <= d < 9 ==> s[d] == ('1' as int + d) as char;
    seq(|s|, i requires 0 <= i < |s| => Group([s[i]]))
  }

  /** Binding that shows group `g` on the current screen: MOD plus the
      group's name, described by a text that ends in that name. */
  function SwitchKey(g: Group): (k: Key)
    ensures Chord(k) == ({MOD}, g.name)
    ensures k.action == GroupToScreen(g.name)
    ensures k.desc.Some? && |g.name| <= |k.desc.value|
    ensures k.desc.value[|k.desc.value| - |g.name|..] == g.name
  {
    assert ModifierSet([MOD]) == {MOD} by {
      forall m ensures m in ModifierSet([MOD]) <==> m == MOD {
      }
    }
    Key([MOD], g.name, GroupToScreen(g.name), Some("Switch to group " + g.name))
  }

  /** Binding that moves the focused window to group `g` and follows it:
      the switch binding's chord with SHIFT added. */
  function MoveKey(g: Group): (k: Key)
    ensures Chord(k) == ({MOD, SHIFT}, g.name)
    ensures Chord(k) != Chord(SwitchKey(g))
    ensures k.action == WindowToGroup(g.name, true)
    ensures k.desc.Some? && |g.name| <= |k.desc.value|
    ensures k.desc.value[|k.desc.value| - |g.name|..] == g.name
  {
    assert ModifierSet([MOD, SHIFT]) == {MOD, SHIFT} by {
      forall m ensures m in ModifierSet([MOD, SHIFT]) <==> m == MOD || m == SHIFT {
      }
    }
    assert SHIFT !in {MOD};
    Key([MOD, SHIFT], g.name, WindowToGroup(g.name, true),
        Some("Switch to & move focused window to group " + g.name))
  }

  /** What one pass of the group loop appends. */
  function GroupPair(g: Group): seq<Key> {
    [SwitchKey(g), MoveKey(g)]
  }

  /** Everything the group loop appends after going through `groups`. */
  function GroupKeys(groups: seq<Group>): (keys: seq<Key>)
    ensures |keys| == 2 * |groups|
  {
    if groups == [] then [] else GroupKeys(groups[..|groups| - 1]) + GroupPair(groups[|groups| - 1])
  }

  /** The name of the `d`-th group (0-based): the digit d + 1. */
  function DigitName(d: int): string
    requires 0 <= d < 9
  {
    [('1' as int + d) as char]
  }

  /** The bindings the group loop appends, at offset `m` of what it appends:
      for the group `m / 2`, first the switch binding, then the move binding. */
  function GeneratedKey(m: int): Key
    requires 0 <= m < 18
  {
    var n := DigitName(m / 2);
    if m % 2 == 0 then Key([MOD], n, GroupToScreen(n), Some("Switch to group " + n))
    else Key([MOD, SHIFT], n, WindowToGroup(n, true), Some("Switch to & move focused window to group " + n))
  }

  /** A name that one of the digit groups carries. */
  predicate IsDigitName(name: string) {
    |name| == 1 && '1' <= name[0] <= '9'
  }

  /** `keys` is built as in the configuration: the literal bindings, then
      `keys.extend([...])` once per group, in group order. */
  method BuildKeys() returns (keys: seq<Key>)
    ensures keys == StaticKeys() + GroupKeys(Groups())
    ensures |keys| == 54
    ensures keys[..36] == StaticKeys()
    ensures forall i :: 36 <= i < 54 ==> keys[i] == GeneratedKey(i - 36)
    ensures DistinctChords(keys)
  {
    var groups := Groups();
    keys := StaticKeys();
    for i := 0 to |groups|
      invariant keys == StaticKeys() + GroupKeys(groups[..i])
    {
      var g := groups[i];
      keys := keys + [
        Key([MOD], g.name, GroupToScreen(g.name), Some("Switch to group " + g.name)),
        Key([MOD, SHIFT], g.name, WindowToGroup(g.name, true),
            Some("Switch to & move focused window to group " + g.name))
      ];
      assert groups[..i + 1][..i] == groups[..i];
    }
    assert groups[..|groups|] == groups;
    ConfigKeysShape();
  }

  /** The finished table: the 36 literal bindings, then for each digit group
      its switch and move bindings, with no chord bound twice. */
  lemma ConfigKeysShape()
    ensures var keys := StaticKeys() + GroupKeys(Groups());
      && |keys| == 54
      && keys[..36] == StaticKeys()
      && (forall i :: 36 <= i < 54 ==> keys[i] == GeneratedKey(i - 36))
      && DistinctChords(keys)
  {
    GroupKeysAreGenerated();
    ConfigKeysDistinct();
  }

  /** The `k`-th pass of the group loop contributes entries 2k and 2k + 1. */
  lemma {:induction false} GroupKeysAt(groups: seq<Group>, k: int)
    requires 0 <= k < |groups|
    ensures GroupKeys(groups)[2 * k] == SwitchKey(groups[k])
    ensures GroupKeys(groups)[2 * k + 1] == MoveKey(groups[k])
  {
    var init := groups[..|groups| - 1];
    if k < |groups| - 1 {
      GroupKeysAt(init, k);
      assert init[k] == groups[k];
    }
  }

  /** Everything the loop appends to the table, entry by entry. */
  lemma GroupKeysAreGenerated()
    ensures |GroupKeys(Groups())| == 18
    ensures forall m :: 0 <= m < 18 ==> GroupKeys(Groups())[m] == GeneratedKey(m)
  {
    forall m | 0 <= m < 18 ensures GroupKeys(Groups())[m] == GeneratedKey(m) {
      GroupKeysAt(Groups(), m / 2);
    }
  }

  /** Two groups with different names never produce the same chord, and the
      two bindings of one group differ in their modifiers. */
  lemma {:induction false} GroupKeysDistinct(groups: seq<Group>)
    requires forall i, j :: 0 <= i < j < |groups| ==> groups[i].name != groups[j].name
    ensures DistinctChords(GroupKeys(groups))
  {
    var keys := GroupKeys(groups);
    forall i, j | 0 <= i < j < |keys| ensures Chord(keys[i]) != Chord(keys[j]) {
      var a, b := i / 2, j / 2;
      GroupKeysAt(groups, a);
      GroupKeysAt(groups, b);
    }
  }

  /** No literal binding is bound to a bare digit key. */
  lemma StaticKeysAvoidDigits()
    ensures forall i :: 0 <= i < 36 ==> !IsDigitName(StaticKeys()[i].key)
  {
  }

  /** For the modifier lists the configuration writes, comparing them as
      sets is the same as comparing them as lists. */
  lemma UsualModifierSets(a: seq<Modifier>, b: seq<Modifier>)
    requires UsualModifiers(a) && UsualModifiers(b)
    ensures ModifierSet(a) == ModifierSet(b) <==> a == b
  {
    if ModifierSet(a) == ModifierSet(b) {
      assert Mod4 in a <==> Mod4 in ModifierSet(b);
      assert Shift in a <==> Shift in ModifierSet(b);
      assert Control in a <==> Control in ModifierSet(b);
    }
  }

  /** A table that writes only the usual modifier lists and never writes
      the same chord twice has no two bindings with the same chord. */
  lemma WrittenChordsDistinct(keys: seq<Key>)
    requires forall i :: 0 <= i < |keys| ==> UsualModifiers(keys[i].modifiers)
    requires forall i, j :: 0 <= i < j < |keys| ==> WrittenChord(keys[i]) != WrittenChord(keys[j])
    ensures DistinctChords(keys)
  {
    forall i, j | 0 <= i < j < |keys| ensures Chord(keys[i]) != Chord(keys[j]) {
      UsualModifierSets(keys[i].modifiers, keys[j].modifiers);
    }
  }

  /** Every literal binding writes one of the usual modifier lists. */
  lemma StaticKeysUsualModifiers()
    ensures forall i :: 0 <= i < 36 ==> UsualModifiers(StaticKeys()[i].modifiers)
  {
  }

  // The literal table is checked pairwise in row blocks, to keep each proof
  // small, first on the chords as written.

  lemma StaticRowsDistinct0()
    ensures forall i, j :: 0 <= i < 2 && i < j < 36 ==> WrittenChord(StaticKeys()[i]) != WrittenChord(StaticKeys()[j])
  {
  }

  lemma StaticRowsDistinct1()
    ensures forall i, j :: 2 <= i < 4 && i < j < 36 ==> WrittenChord(StaticKeys()[i]) != WrittenChord(StaticKeys()[j])
  {
  }

  lemma StaticRowsDistinct2()
    ensures forall i, j :: 4 <= i < 6 && i < j < 36 ==> WrittenChord(StaticKeys()[i]) != WrittenChord(StaticKeys()[j])
  {
  }

  lemma StaticRowsDistinct3()
    ensures forall i, j :: 6 <= i < 7 && i < j < 36 ==> WrittenChord(StaticKeys()[i]) != WrittenChord(StaticKeys()[j])
  {
  }

  lemma StaticRowsDistinct4()
    ensures forall i, j :: 7 <= i < 8 && i < j < 36 ==> WrittenChord(StaticKeys()[i]) != WrittenChord(StaticKeys()[j])
  {
  }

  lemma StaticRowsDistinct5()
    ensures forall i, j :: 8 <= i < 9 && i < j < 36 ==> WrittenChord(StaticKeys()[i]) != WrittenChord(StaticKeys()[j])
  {
  }

  lemma StaticRowsDistinct6()
    ensures forall i, j :: 9 <= i < 12 && i < j < 36 ==> WrittenChord(StaticKeys()[i]) != WrittenChord(StaticKeys()[j])
  {
  }

  lemma StaticRowsDistinct7()
    ensures forall i, j :: 12 <= i < 16 && i < j < 36 ==> WrittenChord(StaticKeys()[i]) != WrittenChord(StaticKeys()[j])
  {
  }

  lemma StaticRowsDistinct8()
    ensures forall i, j :: 16 <= i < 36 && i < j < 36 ==> WrittenChord(StaticKeys()[i]) != WrittenChord(StaticKeys()[j])
  {
  }

  /** No two literal bindings share a chord, modifiers compared as sets. */
  lemma StaticKeysDistinct()
    ensures DistinctChords(StaticKeys())
  {
    StaticRowsDistinct0();
    StaticRowsDistinct1();
    StaticRowsDistinct2();
    StaticRowsDistinct3();
    StaticRowsDistinct4();
    StaticRowsDistinct5();
    StaticRowsDistinct6();
    StaticRowsDistinct7();
    StaticRowsDistinct8();
    StaticKeysUsualModifiers();
    WrittenChordsDistinct(StaticKeys());
  }

  /** Two chord-distinct tables with no chord in common concatenate to a
      chord-distinct table. */
  lemma DistinctChordsAppend(a: seq<Key>, b: seq<Key>)
    requires DistinctChords(a) && DistinctChords(b)
    requires forall i, j :: 0 <= i < |a| && 0 <= j < |b| ==> Chord(a[i]) != Chord(b[j])
    ensures DistinctChords(a + b)
  {
    var c := a + b;
    forall i, j | 0 <= i < j < |c| ensures Chord(c[i]) != Chord(c[j]) {
      if j < |a| {
        assert c[i] == a[i] && c[j] == a[j];
      } else if i < |a| {
        assert c[i] == a[i] && c[j] == b[j - |a|];
      } else {
        assert c[i] == b[i - |a|] && c[j] == b[j - |a|];
      }
    }
  }

  /** The whole table has no two bindings with the same chord. */
  lemma ConfigKeysDistinct()
    ensures DistinctChords(StaticKeys() + GroupKeys(Groups()))
  {
    GroupKeysDistinct(Groups());
    StaticKeysDistinct();
    StaticKeysAvoidDigits();
    GroupKeysAreGenerated();
    var a, b := StaticKeys(), GroupKeys(Groups());
    forall i, j | 0 <= i < |a| && 0 <= j < |b| ensures Chord(a[i]) != Chord(b[j]) {
      assert IsDigitName(b[j].key);
    }
    DistinctChordsAppend(a, b);
  }
}
