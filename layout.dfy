/**
 * What the component renders from its state (app/page.tsx:27, 173-224):
 * the orientation chosen from the viewport width, the size of the two
 * panes, and the console's contents or its placeholder.
 */
module Layout {
  import Divider

  /** Viewports this wide or narrower stack the panes (app/page.tsx:27). */
  const MobileBreakpoint: int := 768

  const Placeholder: string := "// Console Output Goes Here"

  /** Whether a viewport of `innerWidth` pixels is treated as mobile. */
  predicate IsMobile(innerWidth: int): (r: bool)
    ensures r <==> innerWidth <= 768
  {
    innerWidth <= MobileBreakpoint
  }

  /** A pane's CSS width and height, both as percentages of the container. */
  datatype Pane = Pane(width: real, height: real)

  datatype Panes = Panes(editor: Pane, console: Pane)

  /** The size of a pane along the split axis: its height when the panes
      are stacked, its width when they sit side by side. */
  function Along(p: Pane, mobile: bool): real {
    if mobile then p.height else p.width
  }

  /** The size of a pane across the split axis. */
  function Across(p: Pane, mobile: bool): real {
    if mobile then p.width else p.height
  }

  /** The style of the two panes (app/page.tsx:175, 214). */
  function PaneSizes(dividerPos: real, mobile: bool): (r: Panes)
    ensures Along(r.editor, mobile) == dividerPos
    ensures Along(r.editor, mobile) + Along(r.console, mobile) == 100.0
    ensures Across(r.editor, mobile) == 100.0 && Across(r.console, mobile) == 100.0
  {
    if mobile then Panes(Pane(100.0, dividerPos), Pane(100.0, 100.0 - dividerPos))
    else Panes(Pane(dividerPos, 100.0), Pane(100.0 - dividerPos, 100.0))
  }

  /** With any ratio the divider can hold, both panes take the full width
      exactly when the viewport is at most 768 pixels wide, and each pane
      keeps more than a fifth of the split axis. */
  lemma StackedIffNarrow(dividerPos: real, innerWidth: int)
    requires Divider.Admissible(dividerPos)
    ensures var r := PaneSizes(dividerPos, IsMobile(innerWidth));
            (r.editor.width == 100.0 && r.console.width == 100.0) <==> innerWidth <= 768
    ensures var m := IsMobile(innerWidth); var r := PaneSizes(dividerPos, m);
            Along(r.editor, m) > 20.0 && Along(r.console, m) > 20.0
  {
  }

  /** What the console pane shows (app/page.tsx:215-221). */
  datatype ConsoleView = ShowPlaceholder | ShowLines(lines: seq<string>)

  function ConsoleContents(logs: seq<string>): (v: ConsoleView)
    ensures v.ShowPlaceholder? <==> logs == []
    ensures v.ShowLines? ==> v.lines == logs
  {
    if |logs| > 0 then ShowLines(logs) else ShowPlaceholder
  }
}
