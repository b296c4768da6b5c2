/**
 * The `Home` component of app/page.tsx as an object whose fields are the
 * component's refs and state, together with the parts of its collaborators
 * that its handlers change: the editor's buffer and decorations, the
 * browser's queue of animation-frame callbacks, and `console.log`.
 *
 * Each method is one event handler. The browser delivers events one at a
 * time, so a run of the page is any sequence of these calls. The exception
 * is `RunCode` (with its corrected form `RunCodeRestoring`): nothing in
 * app/page.tsx calls `runCode`, so it stands for a trigger the file does
 * not provide.
 */
module Playground {
  import opened LastLineMarker
  import opened Divider
  import opened Sandbox
  import opened Layout

  /** A callback waiting in the browser's animation-frame queue. */
  datatype FrameTask =
    | UpdateMarker                                              // app/page.tsx:66-68
    | UpdateDivider(clientX: real, clientY: real, mobile: bool) // app/page.tsx:136-149

  class Home {
    /** The split ratio, `dividerPos` (app/page.tsx:13). */
    var dividerPos: real
    /** `isResizing.current` (app/page.tsx:14). */
    var isResizing: bool
    /** `animationFrameRef.current`, with 0 for null (app/page.tsx:16). The
        same slot serves the marker updates and the drag frames. */
    var frameRef: nat
    /** The callbacks of this component that the browser has queued for
        the next frame, by the handle `requestAnimationFrame` returned. */
    var frameQueue: map<nat, FrameTask>
    /** The next handle the browser hands out; handles start at 1. */
    var nextHandle: nat

    /** `editorRef.current !== null`, which is also when the editor's
        change listener is registered (app/page.tsx:59-69). */
    var editorMounted: bool
    /** `editor.getModel() !== null` (app/page.tsx:81-82). */
    var hasModel: bool
    /** `model.getLinesContent()`: the buffer, line by line. */
    var lines: seq<string>
    /** The decorations the editor displays, by identifier. */
    var decorations: map<nat, Anchor>
    /** The identifier the editor gives the next decoration it adds. */
    var nextDecorationId: nat
    /** `decorationsRef.current` (app/page.tsx:19). */
    var decorationsRef: seq<nat>
    /** How many times the component asked the editor to lay itself out. */
    var layoutRequests: nat

    /** `logs` (app/page.tsx:20). */
    var logs: seq<string>
    /** What `console.log` currently is. */
    var console: Channel
    /** `isMobile` (app/page.tsx:21). */
    var isMobile: bool

    /** The editor shows exactly one decoration, the marker at `a`, and the
        component holds its identifier. */
    ghost predicate ShowsOnlyMarker(a: Anchor)
      reads this
    {
      |decorationsRef| == 1 && decorations == map[decorationsRef[0] := a]
    }

    ghost predicate Valid()
      reads this
    {
      Admissible(dividerPos) &&
      // every queued callback is the one the shared slot names
      0 < nextHandle && frameRef < nextHandle &&
      frameQueue.Keys <= {frameRef} && 0 !in frameQueue &&
      // the decorations shown are exactly the ones the component holds
      |decorationsRef| <= 1 &&
      (decorationsRef == [] ==> decorations == map[]) &&
      (|decorationsRef| == 1 ==> decorations.Keys == {decorationsRef[0]}) &&
      (forall id | id in decorations :: id < nextDecorationId)
    }

    /** However the events interleave, at most one frame callback of the
        component is pending. */
    lemma AtMostOneFrame()
      requires Valid()
      ensures |frameQueue| <= 1
    {
      AtMostOnePending(frameQueue, frameRef);
    }

    /** The state of the first render (app/page.tsx:13-21). */
    constructor ()
      ensures Valid()
      ensures dividerPos == Midpoint && !isResizing
      ensures frameRef == 0 && frameQueue == map[]
      ensures !editorMounted && decorations == map[] && decorationsRef == []
      ensures logs == [] && console == Native && !isMobile
    {
      dividerPos := Midpoint;
      isResizing := false;
      frameRef := 0;
      frameQueue := map[];
      nextHandle := 1;
      editorMounted := false;
      hasModel := false;
      lines := [];
      decorations := map[];
      nextDecorationId := 0;
      decorationsRef := [];
      layoutRequests := 0;
      logs := [];
      console := Native;
      isMobile := false;
    }

    /** `setMobile`, run once on mount and on every window resize
        (app/page.tsx:25-29). */
    method SetMobile(innerWidth: int)
      requires Valid()
      modifies this`isMobile
      ensures Valid()
      ensures isMobile <==> innerWidth <= 768
    {
      isMobile := IsMobile(innerWidth);
    }

    /** A window resize: both resize listeners run; the editor's exists only
        once the editor is mounted (app/page.tsx:30-32, 60-61). The split
        ratio is not touched. */
    method WindowResized(innerWidth: int)
      requires Valid()
      modifies this`isMobile, this`layoutRequests
      ensures Valid()
      ensures isMobile <==> innerWidth <= 768
      ensures layoutRequests == old(layoutRequests) + (if editorMounted then 1 else 0)
    {
      SetMobile(innerWidth);
      if editorMounted {
        layoutRequests := layoutRequests + 1;
      }
    }

    /** `handleEditorDidMount` once `monaco-editor` has loaded: keep the
        editor, listen for edits and place the marker right away
        (app/page.tsx:56-75). */
    method EditorDidMount(initial: seq<string>, modelPresent: bool)
      requires Valid() && !editorMounted
      modifies this`editorMounted, this`hasModel, this`lines
      modifies this`decorations, this`decorationsRef, this`nextDecorationId
      ensures Valid()
      ensures editorMounted && hasModel == modelPresent && lines == initial
      ensures modelPresent ==> ShowsOnlyMarker(MarkerAnchor(initial))
      ensures !modelPresent ==> decorations == old(decorations) && decorationsRef == old(decorationsRef)
    {
      editorMounted := true;
      hasModel := modelPresent;
      lines := initial;
      AddLastLineMarker();
    }

    /** `addLastLineMarker`: replace whatever decorations the component
        holds with one marker at the end of the last line
        (app/page.tsx:78-106). Without an editor or a model it does nothing. */
    method AddLastLineMarker()
      requires Valid()
      modifies this`decorations, this`decorationsRef, this`nextDecorationId
      ensures Valid()
      ensures editorMounted && hasModel ==> ShowsOnlyMarker(MarkerAnchor(lines))
      ensures !(editorMounted && hasModel) ==>
                decorations == old(decorations) && decorationsRef == old(decorationsRef)
                && nextDecorationId == old(nextDecorationId)
    {
      if !editorMounted || !hasModel {
        return;
      }
      var anchor := MarkerAnchor(lines);
      // deltaDecorations: drop the old identifiers, add one new decoration
      var id := nextDecorationId;
      decorations := (decorations - (set old_id | old_id in decorationsRef))[id := anchor];
      assert decorations == map[id := anchor];
      nextDecorationId := nextDecorationId + 1;
      decorationsRef := [id];
    }

    /** Drop whatever callback the shared slot names, if any
        (app/page.tsx:63-65, 124-126, 132-134). */
    method CancelPendingFrame()
      requires Valid()
      modifies this`frameQueue
      ensures Valid()
      ensures frameQueue == map[]
    {
      if frameRef != 0 {
        frameQueue := frameQueue - {frameRef};
      }
    }

    /** Cancel the pending callback and queue `task` in its place
        (app/page.tsx:63-66, 132-136). */
    method ScheduleFrame(task: FrameTask)
      requires Valid()
      modifies this`frameRef, this`frameQueue, this`nextHandle
      ensures Valid()
      ensures frameRef == old(nextHandle) && nextHandle == old(nextHandle) + 1
      ensures frameQueue == map[frameRef := task]
    {
      CancelPendingFrame();
      frameRef := nextHandle;
      frameQueue := frameQueue[frameRef := task];
      nextHandle := nextHandle + 1;
    }

    /** An edit of the buffer. Once the editor is mounted, its change
        listener replaces any pending callback by a marker update
        (app/page.tsx:62-69). */
    method Edit(newLines: seq<string>)
      requires Valid()
      modifies this`lines, this`frameRef, this`frameQueue, this`nextHandle
      ensures Valid()
      ensures lines == newLines
      ensures editorMounted ==> frameRef == old(nextHandle) && frameQueue == map[frameRef := UpdateMarker]
      ensures !editorMounted ==>
                frameRef == old(frameRef) && frameQueue == old(frameQueue) && nextHandle == old(nextHandle)
    {
      lines := newLines;
      if editorMounted {
        ScheduleFrame(UpdateMarker);
      }
    }

    /** `startResizing`: a mouse-down on the divider (app/page.tsx:109-116). */
    method StartResizing()
      requires Valid()
      modifies this`isResizing
      ensures Valid()
      ensures isResizing
    {
      isResizing := true;
    }

    /** A mouse-up. The `stopResizing` listener is on the window only from
        `startResizing` until it removes itself (app/page.tsx:114, 122), so a
        mouse-up outside a drag reaches nothing. One that ends a drag runs
        `stopResizing` (app/page.tsx:118-127); because the slot is shared, a
        pending marker update is dropped as well. */
    method StopResizing()
      requires Valid()
      modifies this`isResizing, this`frameQueue
      ensures Valid()
      ensures !old(isResizing) ==> !isResizing && frameQueue == old(frameQueue)
      ensures old(isResizing) ==> !isResizing && frameQueue == map[]
    {
      if !isResizing {
        return;
      }
      isResizing := false;
      CancelPendingFrame();
    }

    /** `handleMouseMove` (app/page.tsx:129-150); `mobile` is the orientation
        the handler sees. Outside a drag nothing happens; during one, the
        pending callback is replaced by a divider update for this position. */
    method MouseMove(clientX: real, clientY: real, mobile: bool)
      requires Valid()
      modifies this`frameRef, this`frameQueue, this`nextHandle
      ensures Valid()
      ensures !isResizing ==>
                frameRef == old(frameRef) && frameQueue == old(frameQueue) && nextHandle == old(nextHandle)
      ensures isResizing ==>
                frameRef == old(nextHandle) && frameQueue == map[frameRef := UpdateDivider(clientX, clientY, mobile)]
    {
      if !isResizing {
        return;
      }
      ScheduleFrame(UpdateDivider(clientX, clientY, mobile));
    }

    /** The divider's double-click (app/page.tsx:212). */
    method DoubleClick()
      requires Valid()
      modifies this`dividerPos
      ensures Valid()
      ensures dividerPos == 50.0
    {
      dividerPos := Midpoint;
    }

    /** The browser's next frame: it runs the queued callback, if any, with
        the container as it is at that moment. */
    method AnimationFrame(container: Container)
      requires Valid() && HasExtent(container)
      modifies this`frameQueue, this`dividerPos, this`layoutRequests
      modifies this`decorations, this`decorationsRef, this`nextDecorationId
      ensures Valid()
      ensures frameQueue == map[]
      ensures old(frameQueue) == map[] ==>
                dividerPos == old(dividerPos) && layoutRequests == old(layoutRequests)
                && decorations == old(decorations) && decorationsRef == old(decorationsRef)
      ensures frameRef in old(frameQueue) && old(frameQueue)[frameRef] == UpdateMarker ==>
                dividerPos == old(dividerPos) && layoutRequests == old(layoutRequests)
                && (editorMounted && hasModel ==> ShowsOnlyMarker(MarkerAnchor(lines)))
                && (!(editorMounted && hasModel) ==>
                      decorations == old(decorations) && decorationsRef == old(decorationsRef))
      ensures frameRef in old(frameQueue) && old(frameQueue)[frameRef].UpdateDivider? ==>
                var t := old(frameQueue)[frameRef];
                dividerPos == DragResult(old(dividerPos), t.clientX, t.clientY, t.mobile, container)
                && layoutRequests == old(layoutRequests)
                     + (if editorMounted && DragCommits(t.clientX, t.clientY, t.mobile, container) then 1 else 0)
                && decorations == old(decorations) && decorationsRef == old(decorationsRef)
    {
      if frameRef !in frameQueue {
        return;
      }
      var task := frameQueue[frameRef];
      frameQueue := frameQueue - {frameRef};
      match task
      case UpdateMarker =>
        AddLastLineMarker();
      case UpdateDivider(clientX, clientY, mobile) =>
        if container.Box? {
          var commits := DragCommits(clientX, clientY, mobile, container);
          dividerPos := DragResult(dividerPos, clientX, clientY, mobile, container);
          if commits && editorMounted {
            layoutRequests := layoutRequests + 1;
          }
        }
    }

    /** `runCode` as written (app/page.tsx:152-171). The console is cleared,
        `console.log` is replaced by an interceptor that appends to
        `captured`, and the program runs. On normal completion the original
        `console.log` is put back; when the program throws, the log becomes
        the error line alone and the interceptor stays installed. */
    method RunCode(program: seq<Event>)
      requires Valid()
      modifies this`logs, this`console
      ensures Valid()
      ensures !editorMounted ==> logs == old(logs) && console == old(console)
      ensures editorMounted ==> logs == LogsAfterRun(program)
      ensures editorMounted && Execute(program).Completed? ==> console == old(console)
      ensures editorMounted && Execute(program).Failed? ==> console == Capturing(Execute(program).output)
    {
      if !editorMounted {
        return;
      }
      logs := [];
      var original := console;
      var captured: seq<string> := [];
      console := Capturing(captured);
      var i := 0;
      while i < |program|
        invariant 0 <= i <= |program|
        invariant LogsOnly(program, i)
        invariant |captured| == i && CapturedInOrder(program, captured)
        invariant console == Capturing(captured) && logs == captured
      {
        match program[i] {
          case Log(args) =>
            captured := captured + [JoinArgs(args)];
            console := Capturing(captured);
            logs := captured;
          case Throw(message) =>
            FailedRun(program, i);
            logs := ["Error: " + message];
            return;
        }
        i := i + 1;
      }
      CompletedRun(program);
      console := original;
    }

    /** `runCode` with the original `console.log` put back on both paths,
        as a `finally` block would. */
    method RunCodeRestoring(program: seq<Event>)
      requires Valid()
      modifies this`logs, this`console
      ensures Valid()
      ensures !editorMounted ==> logs == old(logs)
      ensures editorMounted ==> logs == LogsAfterRun(program)
      ensures console == old(console)
    {
      if !editorMounted {
        return;
      }
      logs := [];
      var original := console;
      var captured: seq<string> := [];
      console := Capturing(captured);
      var i := 0;
      while i < |program|
        invariant 0 <= i <= |program|
        invariant LogsOnly(program, i)
        invariant |captured| == i && CapturedInOrder(program, captured)
        invariant console == Capturing(captured) && logs == captured
      {
        match program[i] {
          case Log(args) =>
            captured := captured + [JoinArgs(args)];
            console := Capturing(captured);
            logs := captured;
          case Throw(message) =>
            FailedRun(program, i);
            logs := ["Error: " + message];
            console := original;
            return;
        }
        i := i + 1;
      }
      CompletedRun(program);
      console := original;
    }

    /** A `console.log` call made outside a run, by whatever code calls it
        next. While an interceptor is installed it is captured and shown
        (app/page.tsx:161-164); otherwise the console pane is not affected. */
    method ConsoleLog(args: seq<string>)
      requires Valid()
      modifies this`logs, this`console
      ensures Valid()
      ensures old(console).Native? ==> logs == old(logs) && console == Native
      ensures old(console).Capturing? ==>
                console == Capturing(old(console).captured + [JoinArgs(args)]) && logs == console.captured
    {
      match console
      case Native =>
      case Capturing(captured) =>
        console := Capturing(captured + [JoinArgs(args)]);
        logs := console.captured;
    }
  }

  /** Callbacks queued through one slot: at most one is ever pending. */
  lemma AtMostOnePending(q: map<nat, FrameTask>, slot: nat)
    requires q.Keys <= {slot}
    ensures |q| <= 1
  {
    if slot in q {
      assert q.Keys == {slot};
    } else {
      assert q.Keys == {};
    }
  }

  /** Edits that arrive within one frame lead to one marker update, and it
      reads the buffer as the last edit left it. */
  method EditBurstThenFrame(first: seq<string>, second: seq<string>)
    returns (marker: nat, shown: map<nat, Anchor>)
    ensures shown == map[marker := MarkerAnchor(second)]
  {
    var home := new Home();
    home.EditorDidMount([], true);
    home.Edit(first);
    home.Edit(second);
    assert home.frameQueue[home.frameRef] == UpdateMarker;
    assert home.editorMounted && home.hasModel && home.lines == second;
    home.AnimationFrame(Unattached);
    assert home.ShowsOnlyMarker(MarkerAnchor(second));
    marker, shown := home.decorationsRef[0], home.decorations;
  }

  /** The shared slot at work: a drag move after an edit cancels the edit's
      marker update. The marker recompute is dropped, so the only decoration
      is still the one placed for the initial buffer (wherever the editor
      has moved it), while the divider moves to 30%. */
  method DragDropsPendingMarkerUpdate(initial: seq<string>, edited: seq<string>)
    returns (marker: nat, shown: map<nat, Anchor>, ratio: real)
    ensures shown == map[marker := MarkerAnchor(initial)]
    ensures ratio == 30.0
  {
    var home := new Home();
    home.EditorDidMount(initial, true);
    home.Edit(edited);
    home.StartResizing();
    home.MouseMove(300.0, 0.0, false);
    home.AnimationFrame(Box(0.0, 0.0, 1000.0, 800.0));
    marker, shown := home.decorationsRef[0], home.decorations;
    ratio := home.dividerPos;
  }

  /** With `runCode` as written, a program that throws leaves its
      interceptor in place: the next `console.log` anywhere on the page
      replaces the error line in the console pane. */
  method StrayLogAfterFailedRun() returns (afterRun: seq<string>, afterStrayLog: seq<string>)
    ensures afterRun == ["Error: boom"]
    ensures afterStrayLog == ["late"]
  {
    var home := new Home();
    home.EditorDidMount([], false);
    var program := [Throw("boom")];
    FailedRun(program, 0);
    assert "Error: " + "boom" == "Error: boom";
    home.RunCode(program);
    assert home.console == Capturing([]);
    afterRun := home.logs;
    home.ConsoleLog(["late"]);
    afterStrayLog := home.logs;
  }

  /** With the interceptor removed on both paths, the error line stays. */
  method StrayLogAfterRestoringRun() returns (afterRun: seq<string>, afterStrayLog: seq<string>)
    ensures afterRun == ["Error: boom"]
    ensures afterStrayLog == ["Error: boom"]
  {
    var home := new Home();
    home.EditorDidMount([], false);
    var program := [Throw("boom")];
    FailedRun(program, 0);
    assert "Error: " + "boom" == "Error: boom";
    home.RunCodeRestoring(program);
    assert home.console == Native;
    afterRun := home.logs;
    home.ConsoleLog(["late"]);
    afterStrayLog := home.logs;
  }
}
