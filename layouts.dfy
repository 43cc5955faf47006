/** The shared keyword arguments of the configuration's layouts. */
module Layouts {

  const MARGIN := 4
  const BORDER_WIDTH := 3
  const BORDER_FOCUS := "#a7c080"
  const BORDER_NORMAL := "#425047"

  /** The dictionary `init_basic_layout` returns, one field per key:
      margin, border_width, border_focus, border_normal, border_focus_stack
      and border_normal_stack. */
  datatype LayoutTheme = LayoutTheme(
    margin: int,
    borderWidth: int,
    borderFocus: string,
    borderNormal: string,
    borderFocusStack: string,
    borderNormalStack: string)

  /** The parameters of `init_basic_layout`, in the order it takes them
      (the normal colour before the focus colour). */
  datatype ThemeArgs = ThemeArgs(margin: int, borderWidth: int, borderNormal: string, borderFocus: string)

  /** Stacked windows are drawn with the same colours as the others. */
  predicate StackMirrorsMain(t: LayoutTheme) {
    t.borderFocusStack == t.borderFocus && t.borderNormalStack == t.borderNormal
  }

  /** The arguments a theme was built from. */
  function ArgsOf(t: LayoutTheme): ThemeArgs {
    ThemeArgs(t.margin, t.borderWidth, t.borderNormal, t.borderFocus)
  }

  /** `init_basic_layout(margin, border_width, border_normal, border_focus)`:
      every argument lands in the key of the same name, and the stack colours
      repeat the focus and normal colours. */
  function InitBasicLayout(margin: int, borderWidth: int, borderNormal: string, borderFocus: string): (t: LayoutTheme)
    ensures StackMirrorsMain(t)
    ensures ArgsOf(t) == ThemeArgs(margin, borderWidth, borderNormal, borderFocus)
  {
    LayoutTheme(margin, borderWidth, borderFocus, borderNormal, borderFocus, borderNormal)
  }

  /** Every theme whose stack colours mirror its main colours is the one
      `init_basic_layout` builds from its own arguments. */
  lemma InitBasicLayoutOnto(t: LayoutTheme)
    requires StackMirrorsMain(t)
    ensures InitBasicLayout(t.margin, t.borderWidth, t.borderNormal, t.borderFocus) == t
  {
  }

  /** `BASIC_LAYOUT`, the arguments every layout of the configuration gets. */
  function BasicLayout(): (t: LayoutTheme)
    ensures t.margin == MARGIN && t.borderWidth == BORDER_WIDTH
    ensures t.borderFocus == BORDER_FOCUS && t.borderFocusStack == BORDER_FOCUS
    ensures t.borderNormal == BORDER_NORMAL && t.borderNormalStack == BORDER_NORMAL
  {
    InitBasicLayout(MARGIN, BORDER_WIDTH, BORDER_NORMAL, BORDER_FOCUS)
  }
}
