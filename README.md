# qtile configuration: swallowing hooks, key table and layout theme

This project models the parts of a personal qtile configuration
(`HOME/.config/qtile/config.py`) that have logic of their own. The rest of the
file is literal data handed to qtile's constructors.

- **Window swallowing** (module `Swallowing`). `_swallow` runs when a window is
  created. It reads the window's process id and builds a table from pid to
  window id over all open windows. Then it walks up the process tree for at
  most five ancestors. The first ancestor that owns an open window decides the
  outcome. If that window's first WM-class component is `"Alacritty"`, the
  window is minimized and the new window gets a `parent` back-reference.
  Otherwise nothing changes. `_unswallow` runs when a window is closed and
  clears `minimized` on that back-referenced parent. The configuration
  launches `kitty` as its terminal but still tests for `"Alacritty"`; the model
  keeps that literal (`TERMINAL_CLASS`).
  Clients are objects of class `Window`. The host's `windows_map` is a sequence
  of `Slot`s (window id, client) in the map's iteration order. The OS process
  table is a `map<int, int>` from pid to parent pid, where 0 means "no parent".
  The hook is specified by `SwallowSpec`, a function of what it reads: the new
  window's pid, the open windows as `Entry` values, and the process table. The
  method `Swallow` is proved to return that function's outcome. It is also
  proved to change nothing except the swallowed window's `minimized` flag and
  the new window's `parent`.
- **Key-binding table** (module `Keybindings`). The table starts with the 36
  literal bindings. Then, for each group `"1"`..`"9"` in order, the loop appends
  two bindings: a switch binding, and a move-and-switch binding. `BuildKeys`
  performs that loop. Its contract gives the final table entry by entry: 54
  bindings, with the interpolated descriptions and no chord bound twice. A
  chord is a (modifier set, key) pair: the window manager ORs the modifiers
  into one mask, so `[SHIFT, MOD]` and `[MOD, SHIFT]` are the same chord.
- **Layout theme** (module `Layouts`). `init_basic_layout` builds the keyword
  arguments every layout receives. Its stack colours repeat the focus and
  normal colours.

Two behaviours of the code are easy to miss:

- The walk does not stop silently when a process vanishes. `psutil.Process`
  raises, and the hook ends with that exception (`ProcessGone`).
- The fifth iteration still looks up the parent of the fifth ancestor (line
  268) before the loop ends. So that lookup can also raise, even though its
  result is never used.

## Model

| member | source | states |
|---|---|---|
| `Keybindings.StaticKeys` | HOME/.config/qtile/config.py:47-105 | the literal part of `keys` has 36 bindings, in source order |
| `Keybindings.Groups` | HOME/.config/qtile/config.py:108 | there are nine groups; group d (0-based) is named by the digit d + 1 |
| `Keybindings.SwitchKey` | HOME/.config/qtile/config.py:114-116 | a group's switch binding is the chord ({MOD}, the group's name), shows that group, and its description ends in the group's name |
| `Keybindings.MoveKey` | HOME/.config/qtile/config.py:118-120 | a group's move binding is the chord ({MOD, shift}, the group's name), which differs from the switch binding's; it moves the window there and follows it, and its description ends in the group's name |
| `Keybindings.GroupKeys` | HOME/.config/qtile/config.py:110-126 | after the loop has gone through some groups it has appended two bindings per group |
| `Keybindings.GroupKeysAt` | HOME/.config/qtile/config.py:110-120 | the k-th pass of the group loop adds entries 2k and 2k + 1: the switch binding, then the move binding of group k |
| `Keybindings.GroupKeysAreGenerated` | HOME/.config/qtile/config.py:108-126 | the loop adds 18 bindings; entry m is group m / 2's switch binding (`[MOD]`, "Switch to group N") if m is even, else its move binding (`[MOD, "shift"]`, "Switch to & move focused window to group N") |
| `Keybindings.GroupKeysDistinct` | HOME/.config/qtile/config.py:114-119 | groups with distinct names give bindings with pairwise distinct chords |
| `Keybindings.StaticKeysAvoidDigits` | HOME/.config/qtile/config.py:52-104 | no literal binding uses a bare digit "1".."9" as its key |
| `Keybindings.UsualModifierSets` | HOME/.config/qtile/config.py:52-119 | for the modifier lists the configuration writes (`[]`, `[MOD]`, `[MOD, "shift"]`, `[MOD, "control"]`), equal modifier sets means equal lists |
| `Keybindings.WrittenChordsDistinct` | HOME/.config/qtile/config.py:52-119 | a table that writes only those four modifier lists and never writes the same (list, key) pair twice binds no (modifier set, key) chord twice |
| `Keybindings.StaticKeysUsualModifiers` | HOME/.config/qtile/config.py:52-104 | every literal binding writes one of those four modifier lists |
| `Keybindings.StaticKeysDistinct` | HOME/.config/qtile/config.py:52-104 | no two literal bindings share a (modifier set, key) chord |
| `Keybindings.DistinctChordsAppend` | HOME/.config/qtile/config.py:110-111 | extending a chord-distinct table with chord-distinct bindings whose chords are all new keeps it chord-distinct |
| `Keybindings.ConfigKeysDistinct` | HOME/.config/qtile/config.py:47-126 | the finished table has no two bindings with the same (modifier set, key) chord |
| `Keybindings.ConfigKeysShape` | HOME/.config/qtile/config.py:47-126 | the finished table has 54 entries: the 36 literal ones, then the 18 generated ones in group order, with no chord repeated |
| `Keybindings.BuildKeys` | HOME/.config/qtile/config.py:47-126 | the loop that extends `keys` once per group yields exactly the literal bindings followed by each group's two bindings (54 in all, descriptions interpolated, chords distinct) |
| `Swallowing.Window.constructor` | HOME/.config/qtile/config.py:253-273 | a client carries the pid and WM class the hook reads, starts not minimized, and has no `parent` attribute until the hook sets one |
| `Swallowing.Snapshot` | HOME/.config/qtile/config.py:255-263 | what the hook reads of each open window (id, `_NET_WM_PID`, WM class), in iteration order |
| `Swallowing.Find` | HOME/.config/qtile/config.py:262 | `windows_map.get(wid)` finds an item with that id, or reports that none has it |
| `Swallowing.SnapshotWids` | HOME/.config/qtile/config.py:257-262 | the snapshot lists the windows under the same ids as `windows_map`'s keys, in the same order |
| `Swallowing.PidTable` | HOME/.config/qtile/config.py:257 | the pid table's keys are exactly the pids of the open windows, and each value is the id of an open window |
| `Swallowing.PidTableLastWins` | HOME/.config/qtile/config.py:257 | in the pid table, a pid maps to the id of the last window in iteration order that has this pid |
| `Swallowing.PidTableSound` | HOME/.config/qtile/config.py:257 | every key of the pid table is the pid of an open window, and its value is that window's id |
| `Swallowing.PidTableComplete` | HOME/.config/qtile/config.py:257 | every open window's pid is a key of the pid table |
| `Swallowing.Search` | HOME/.config/qtile/config.py:258-268 | when the walk stops at an owner, the window id is a value of the pid table; when a process lookup raises, the pid is non-zero, owns no open window and is missing from the process table |
| `Swallowing.PassedFirstStep` | HOME/.config/qtile/config.py:258-268 | going past the first k + 1 pids of a chain means going past its head, then past the first k pids from the head's parent |
| `Swallowing.FirstOwnerStep` | HOME/.config/qtile/config.py:258-268 | the first owner one step further up is the first owner seen from the parent, provided the walk goes past the current pid |
| `Swallowing.SearchFindsFirstOwner` | HOME/.config/qtile/config.py:258-267 | the walk stops at window w iff, among the inspected pids, the first one that owns an open window owns w, and every pid before it is non-zero, owns no window and has a parent entry |
| `Swallowing.SearchExhausted` | HOME/.config/qtile/config.py:258-268 | the walk runs out of iterations iff it goes past every inspected pid |
| `Swallowing.SearchOrphan` | HOME/.config/qtile/config.py:259-260 | reaching pid 0 before any owner ends the walk with a plain return |
| `Swallowing.Verdict` | HOME/.config/qtile/config.py:262-267 | once the first owner w is found, the outcome names w; it is "parent missing" exactly when w is not an open window, and a swallow only when w is an open "Alacritty" window |
| `Swallowing.SwallowSpec` | HOME/.config/qtile/config.py:254-268 | the hook as a function of what it reads: a raised lookup names a pid missing from the process table; a swallow needs the new window's process, and names a window that is open, owned by a pid of the table, and of the terminal class |
| `Swallowing.ParentAlwaysFound` | HOME/.config/qtile/config.py:257-262 | the parent fetch from `windows_map` never comes back empty, because the pid table is built from the same registry |
| `Swallowing.FirstOwnerDecides` | HOME/.config/qtile/config.py:261-267 | once the first owning ancestor within the bound is found, its window alone decides the outcome; higher ancestors are never consulted |
| `Swallowing.VerdictSwallows` | HOME/.config/qtile/config.py:262-267 | given the first owner w, the hook swallows iff window w is open and its first WM-class component is "Alacritty" |
| `Swallowing.SwallowedByVerdict` | HOME/.config/qtile/config.py:254-267 | the hook swallows w iff the new window's pid has a process entry, the walk stops at w, and the verdict on w is to swallow |
| `Swallowing.SwallowedIff` | HOME/.config/qtile/config.py:254-267 | the hook swallows w iff, among ancestors 1..5, the first one owning an open window owns w, and w is an open "Alacritty" window |
| `Swallowing.NoOwnerNoChange` | HOME/.config/qtile/config.py:256-268 | if none of ancestors 1..5 owns an open window, the outcome is not a swallow, so nothing changes |
| `Swallowing.OrphanNoChange` | HOME/.config/qtile/config.py:259-260 | reaching pid 0 among the first five ancestors, before any owner, ends the hook without a change |
| `Swallowing.FifthAncestorSwallowed` | HOME/.config/qtile/config.py:258-267 | the bound is inclusive: a terminal owned by the fifth ancestor is swallowed |
| `Swallowing.SixthAncestorIgnored` | HOME/.config/qtile/config.py:258-268 | a terminal owned by the sixth ancestor is not reached: the hook ends with no owner found |
| `Swallowing.Swallow` | HOME/.config/qtile/config.py:253-268 | the hook's outcome is `SwallowSpec` of what it read. On a swallow, exactly the owner window becomes minimized and the new window's `parent` is set to it. Otherwise no `minimized` flag and no `parent` changes |
| `Swallowing.SwallowOwner` | HOME/.config/qtile/config.py:261-267 | once window w is the first owner, the hook's outcome is the verdict on w; on a swallow exactly that window becomes minimized and becomes the new window's `parent`, otherwise nothing changes |
| `Swallowing.Unswallow` | HOME/.config/qtile/config.py:270-273 | if the closed window has a `parent`, that window is no longer minimized; without one, nothing changes |
| `Swallowing.SwallowThenUnswallow` | HOME/.config/qtile/config.py:253-273 | a window whose process's parent owns an "Alacritty" window swallows it, and closing the new window restores that window's `minimized` flag to false |
| `Layouts.InitBasicLayout` | HOME/.config/qtile/config.py:133-141 | every argument lands in the key of the same name, and the stack colours equal the focus and normal colours |
| `Layouts.InitBasicLayoutOnto` | HOME/.config/qtile/config.py:133-141 | every theme whose stack colours mirror its main colours is what `init_basic_layout` builds from its own arguments |
| `Layouts.BasicLayout` | HOME/.config/qtile/config.py:128-142 | `BASIC_LAYOUT` has margin 4, border width 3, focus colour "#a7c080" and normal colour "#425047", with the stack colours equal to them |

## Left out

- The `autostart` hook (lines 41-44) runs a shell script and ignores its result. There is no state to model.
- `psutil.Process(...).ppid()` is modelled as a lookup in a pid-to-parent map. A pid missing from the map stands for the `NoSuchProcess` exception, which ends the hook before any change (`ProcessGone`). Races in the live process tree are not modelled.
- A window without a `_NET_WM_PID` property (qtile reports `None`) is not modelled: every pid is an integer. `psutil.Process(None)` would inspect the window manager's own process.
- `get_wm_class()` returning `None` is modelled like an empty class list: `[0]` raises and nothing changes (`NoWmClass`).
- The `lazy.*` command objects are host behaviour. Actions are opaque tags (`Action`).
- Modifier names are an enumeration (`Mod4`, `Shift`, `Control`) rather than strings. The configuration uses only these three names.
- Layout objects, widgets, the bar and screen, mouse bindings, floating `Match` rules and the scalar host options are not modelled. They are literal data passed to qtile's constructors.
- Hook registration (`@hook.subscribe`) and the host's event dispatch are not modelled. The hooks are methods called directly.
