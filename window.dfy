/** `WindowConfig.Start`: on the Windows player it renames the window from a `--title`
    command-line argument, makes it borderless and layered, and centres a 360x640 window on
    the desktop. The Win32 calls are recorded as a trace; what they read is an input. */
module WindowConfig {
  import opened Base

  // ---------------------------------------------------------------------------------------
  // The --title argument scan

  const TitleFlag := "--title"

  /** `ToLower` on the letters A-Z; every other character is left as it is. */
  function LowerChar(c: char): char
  {
    if 'A' <= c <= 'Z' then (c as int + 32) as char else c
  }

  function Lower(s: string): (r: string)
    ensures |r| == |s| && forall i :: 0 <= i < |s| ==> r[i] == LowerChar(s[i])
  {
    seq(|s|, i requires 0 <= i < |s| => LowerChar(s[i]))
  }

  predicate IsTitleFlag(arg: string)
  {
    Lower(arg) == TitleFlag
  }

  /** The position of the first argument that reads `--title` in any letter case. */
  function FirstTitleFlag(args: seq<string>): (r: Option<nat>)
    ensures r.Some? ==> r.value < |args| && IsTitleFlag(args[r.value])
                        && forall j :: 0 <= j < r.value ==> !IsTitleFlag(args[j])
    ensures r.None? ==> forall j :: 0 <= j < |args| ==> !IsTitleFlag(args[j])
  {
    if args == [] then None
    else if IsTitleFlag(args[0]) then Some(0)
    else match FirstTitleFlag(args[1..]) {
      case None => None
      case Some(k) => Some(k + 1)
    }
  }

  /** The title the scan settles on: the argument after the first `--title`, or the product
      name when there is no such flag or nothing follows it. */
  function ChosenTitle(productName: string, args: seq<string>): string
  {
    match FirstTitleFlag(args) {
      case Some(i) => if i + 1 < |args| then args[i + 1] else productName
      case None => productName
    }
  }

  /** The argument loop, which stops at the first flag. */
  method ParseTitle(productName: string, args: seq<string>) returns (title: string)
    ensures title == ChosenTitle(productName, args)
  {
    title := productName;
    var i := 0;
    while i < |args|
      invariant 0 <= i <= |args|
      invariant forall j :: 0 <= j < i ==> !IsTitleFlag(args[j])
      invariant title == productName
    {
      if Lower(args[i]) == TitleFlag {
        if i + 1 < |args| {
          title := args[i + 1];
        }
        FirstFlagAt(args, i);
        return;
      }
      i := i + 1;
    }
    NoFlag(args);
  }

  lemma {:induction false} FirstFlagAt(args: seq<string>, i: nat)
    requires i < |args| && IsTitleFlag(args[i]) && forall j :: 0 <= j < i ==> !IsTitleFlag(args[j])
    ensures FirstTitleFlag(args) == Some(i)
    decreases i
  {
    if i > 0 {
      FirstFlagAt(args[1..], i - 1);
    }
  }

  lemma {:induction false} NoFlag(args: seq<string>)
    requires forall j :: 0 <= j < |args| ==> !IsTitleFlag(args[j])
    ensures FirstTitleFlag(args) == None
    decreases |args|
  {
    if args != [] {
      NoFlag(args[1..]);
    }
  }

  /** The scan never looks past the first flag and its value: arguments appended after them
      do not change the title, and a flag in last position keeps the product name even if
      another `--title` with a value follows once more arguments arrive. */
  lemma {:induction false} LaterArgumentsIgnored(productName: string, args: seq<string>, more: seq<string>)
    requires FirstTitleFlag(args).Some?
    ensures var i := FirstTitleFlag(args).value;
      && FirstTitleFlag(args + more) == Some(i)
      && (i + 1 < |args| ==> ChosenTitle(productName, args + more) == ChosenTitle(productName, args) == args[i + 1])
  {
    var i := FirstTitleFlag(args).value;
    FirstFlagAt(args + more, i);
  }

  /** Concrete scans. */
  lemma TitleExamples()
    ensures ChosenTitle("Avatar", ["app.exe", "--TITLE", "Mikuru"]) == "Mikuru"
    ensures ChosenTitle("Avatar", ["app.exe", "--title"]) == "Avatar"
    ensures ChosenTitle("Avatar", ["app.exe", "-title", "Mikuru"]) == "Avatar"
  {
    assert IsTitleFlag("--TITLE");
    assert !IsTitleFlag("app.exe") by { assert Lower("app.exe")[0] != '-'; }
    assert !IsTitleFlag("-title") by { assert |Lower("-title")| != |TitleFlag|; }
    assert !IsTitleFlag("Mikuru") by { assert Lower("Mikuru")[0] != '-'; }
    FirstFlagAt(["app.exe", "--TITLE", "Mikuru"], 1);
    FirstFlagAt(["app.exe", "--title"], 1);
    NoFlag(["app.exe", "-title", "Mikuru"]);
  }

  // ---------------------------------------------------------------------------------------
  // Window style bits

  const WS_CAPTION: bv32 := 0x00C0_0000
  const WS_SYSMENU: bv32 := 0x0008_0000
  const WS_THICKFRAME: bv32 := 0x0004_0000
  const WS_EX_LAYERED: bv32 := 0x0008_0000
  /** The frame bits the borderless window drops. */
  const FrameBits: bv32 := WS_CAPTION | WS_SYSMENU | WS_THICKFRAME

  /** Bit `k` of `x`. */
  predicate BitSet(x: bv32, k: bv32)
    requires k < 32
  {
    (x >> k) & 1 == 1
  }

  /** `style &= ~(WS_CAPTION | WS_SYSMENU | WS_THICKFRAME)`. */
  function Borderless(style: bv32): (r: bv32)
  {
    style & !FrameBits
  }

  /** `exStyle |= WS_EX_LAYERED`. */
  function Layered(exStyle: bv32): (r: bv32)
  {
    exStyle | WS_EX_LAYERED
  }

  /** The borderless style has the caption, system-menu and sizing-frame bits clear and every
      other bit as before; applying it twice changes nothing more. */
  lemma BorderlessBits(style: bv32)
    ensures forall k: bv32 | k < 32 :: BitSet(Borderless(style), k) <==> BitSet(style, k) && !BitSet(FrameBits, k)
    ensures Borderless(style) & FrameBits == 0
    ensures Borderless(Borderless(style)) == Borderless(style)
  {
    forall k: bv32 | k < 32
      ensures BitSet(Borderless(style), k) <==> BitSet(style, k) && !BitSet(FrameBits, k)
    {
      BorderlessBit(style, k);
    }
  }

  lemma BorderlessBit(style: bv32, k: bv32)
    requires k < 32
    ensures BitSet(Borderless(style), k) <==> BitSet(style, k) && !BitSet(FrameBits, k)
  {
  }

  lemma LayeredBit(exStyle: bv32, k: bv32)
    requires k < 32
    ensures BitSet(Layered(exStyle), k) <==> BitSet(exStyle, k) || BitSet(WS_EX_LAYERED, k)
  {
    OrBit(exStyle, WS_EX_LAYERED, k);
  }

  lemma OrBit(x: bv32, y: bv32, k: bv32)
    requires k < 32
    ensures BitSet(x | y, k) <==> BitSet(x, k) || BitSet(y, k)
  {
  }

  /** The layered extended style has `WS_EX_LAYERED` set and every other bit as before. */
  lemma LayeredBits(exStyle: bv32)
    ensures forall k: bv32 | k < 32 :: BitSet(Layered(exStyle), k) <==> BitSet(exStyle, k) || BitSet(WS_EX_LAYERED, k)
    ensures Layered(exStyle) & WS_EX_LAYERED == WS_EX_LAYERED
    ensures Layered(Layered(exStyle)) == Layered(exStyle)
  {
    forall k: bv32 | k < 32
      ensures BitSet(Layered(exStyle), k) <==> BitSet(exStyle, k) || BitSet(WS_EX_LAYERED, k)
    {
      LayeredBit(exStyle, k);
    }
  }

  // ---------------------------------------------------------------------------------------
  // Centring

  const TargetWidth := 1080 / 3
  const TargetHeight := 1920 / 3

  /** `(screen - size) / 2` in C# `int` arithmetic. */
  function CentreOrigin(screen: Int32, size: int): (x: int)
  {
    TruncDiv(Wrap32(screen as int - size) as int, 2)
  }

  /** When the subtraction does not overflow, the window is centred to within a pixel: the
      margins on either side differ by at most one, the far one being the larger when the
      screen is wider and the near one when it is narrower (division truncates toward zero). */
  lemma Centred(screen: Int32, size: int)
    requires -0x8000_0000 <= screen as int - size < 0x8000_0000
    ensures var x := CentreOrigin(screen, size); var far := screen as int - (x + size);
      && (screen as int >= size ==> x >= 0 && (far == x || far == x + 1))
      && (screen as int < size ==> x <= 0 && (far == x || far == x - 1))
  {
  }

  // ---------------------------------------------------------------------------------------
  // Start

  const GWL_STYLE := -16
  const GWL_EXSTYLE := -20
  const HWND_TOP := 0
  const HWND_TOPMOST := -1
  const SWP_FRAMECHANGED: bv32 := 0x0020
  const SWP_NOMOVE: bv32 := 0x0002
  const SWP_NOSIZE: bv32 := 0x0001
  const SWP_NOZORDER: bv32 := 0x0004
  const SWP_SHOWWINDOW: bv32 := 0x0040

  /** The side effects of `Start`, in order. */
  datatype WinCall =
    | SetWindowText(hWnd: int, text: string)
    | ClearCameraToTransparent
    | SetWindowLong(hWnd: int, index: int, value: bv32)
    | SetWindowPos(hWnd: int, insertAfter: int, x: int, y: int, cx: int, cy: int, flags: bv32)
    | ExtendFrameIntoClientArea(hWnd: int, leftWidth: int)

  /** What `Start` reads: the build target, the product name, the command line, the handle
      `FindWindow` returns, whether a main camera exists, the current styles and the screen
      size. */
  datatype Environment = Environment(
    standaloneWindows: bool,
    productName: string,
    args: seq<string>,
    foundHandle: int,
    hasMainCamera: bool,
    style: bv32,
    exStyle: bv32,
    screenWidth: Int32,
    screenHeight: Int32)

  /** The calls `Start` makes, as a function of what it reads. */
  function StartCalls(env: Environment): seq<WinCall>
  {
    var h := env.foundHandle;
    if !env.standaloneWindows || h == 0 then []
    else TitleCalls(h, env) + (if !env.hasMainCamera then [] else StyleCalls(h, env))
  }

  /** The title call, made only when `--title` chose a title other than the product name. */
  function TitleCalls(h: int, env: Environment): seq<WinCall>
  {
    var title := ChosenTitle(env.productName, env.args);
    if title != env.productName then [SetWindowText(h, title)] else []
  }

  /** The calls made once the main camera is found. */
  function StyleCalls(h: int, env: Environment): seq<WinCall>
  {
    [ ClearCameraToTransparent,
      SetWindowLong(h, GWL_STYLE, Borderless(env.style)),
      SetWindowPos(h, HWND_TOP, 0, 0, 0, 0, SWP_FRAMECHANGED | SWP_NOMOVE | SWP_NOSIZE | SWP_NOZORDER),
      SetWindowLong(h, GWL_EXSTYLE, Layered(env.exStyle)),
      ExtendFrameIntoClientArea(h, -1),
      SetWindowPos(h, HWND_TOPMOST, CentreOrigin(env.screenWidth, TargetWidth),
                   CentreOrigin(env.screenHeight, TargetHeight), TargetWidth, TargetHeight, SWP_SHOWWINDOW) ]
  }

  class WindowConfig {
    var windowHandle: int
    /** Every Win32 call made so far. */
    var calls: seq<WinCall>

    constructor ()
      ensures windowHandle == 0 && calls == []
    {
      windowHandle := 0;
      calls := [];
    }

    method Start(env: Environment)
      modifies this
      ensures windowHandle == (if env.standaloneWindows then env.foundHandle else old(windowHandle))
      ensures calls == old(calls) + StartCalls(env)
    {
      if !env.standaloneWindows {
        return;
      }
      var originalTitle := env.productName;
      var uniqueTitle := ParseTitle(originalTitle, env.args);
      windowHandle := env.foundHandle;
      if windowHandle == 0 {
        return;
      }
      ghost var before := calls;
      if uniqueTitle != originalTitle {
        calls := calls + [SetWindowText(windowHandle, uniqueTitle)];
      }
      ghost var titled := calls;
      assert titled == before + TitleCalls(windowHandle, env);
      if !env.hasMainCamera {
        assert StartCalls(env) == TitleCalls(windowHandle, env) + [];
        return;
      }
      ApplyWindowStyle(env);
      assert calls == before + (TitleCalls(windowHandle, env) + StyleCalls(windowHandle, env));
    }

    /** Steps 4 to 8 of `Start`: transparent camera background, borderless style, layered
        extended style, glass frame, and the centred topmost 360x640 placement. */
    method ApplyWindowStyle(env: Environment)
      modifies this
      ensures windowHandle == old(windowHandle)
      ensures calls == old(calls) + StyleCalls(windowHandle, env)
    {
      calls := calls + [ClearCameraToTransparent];
      var style := env.style;
      style := style & !(WS_CAPTION | WS_SYSMENU | WS_THICKFRAME);
      assert style == Borderless(env.style);
      calls := calls + [SetWindowLong(windowHandle, GWL_STYLE, style)];
      calls := calls + [SetWindowPos(windowHandle, HWND_TOP, 0, 0, 0, 0, SWP_FRAMECHANGED | SWP_NOMOVE | SWP_NOSIZE | SWP_NOZORDER)];
      var exStyle := env.exStyle;
      exStyle := exStyle | WS_EX_LAYERED;
      assert exStyle == Layered(env.exStyle);
      calls := calls + [SetWindowLong(windowHandle, GWL_EXSTYLE, exStyle)];
      calls := calls + [ExtendFrameIntoClientArea(windowHandle, -1)];
      var targetWidth := 1080 / 3;
      var targetHeight := 1920 / 3;
      var x := TruncDiv(Wrap32(env.screenWidth as int - targetWidth) as int, 2);
      var y := TruncDiv(Wrap32(env.screenHeight as int - targetHeight) as int, 2);
      assert x == CentreOrigin(env.screenWidth, TargetWidth) && y == CentreOrigin(env.screenHeight, TargetHeight);
      calls := calls + [SetWindowPos(windowHandle, HWND_TOPMOST, x, y, targetWidth, targetHeight, SWP_SHOWWINDOW)];
      assert calls == old(calls) + StyleCalls(windowHandle, env);
    }
  }

  // ---------------------------------------------------------------------------------------
  // Properties of Start

  /** Nothing is changed outside the Windows player or without a window handle; with a handle,
      something is changed unless there is neither a new title nor a main camera. */
  lemma NoHandleNoCalls(env: Environment)
    ensures StartCalls(env) == [] <==>
      (|| !env.standaloneWindows || env.foundHandle == 0
       || (!env.hasMainCamera && ChosenTitle(env.productName, env.args) == env.productName))
  {
  }

  /** The window text is set exactly when there is a handle and the chosen title differs from
      the product name, and then it is set to that title. */
  lemma TitleSetOnlyWhenDifferent(env: Environment)
    ensures (exists c :: c in StartCalls(env) && c.SetWindowText?)
      <==> env.standaloneWindows && env.foundHandle != 0 && ChosenTitle(env.productName, env.args) != env.productName
    ensures forall c :: c in StartCalls(env) && c.SetWindowText? ==> c == SetWindowText(env.foundHandle, ChosenTitle(env.productName, env.args))
  {
    var calls := StartCalls(env);
    var title := ChosenTitle(env.productName, env.args);
    if env.standaloneWindows && env.foundHandle != 0 && title != env.productName {
      assert calls[0] == SetWindowText(env.foundHandle, title);
    }
  }

  /** Without a main camera the styles, the frame and the position are left alone; with one,
      the new style drops exactly the frame bits and the new extended style adds layering,
      and the window is placed at the centred origin with size 360x640. */
  lemma StyleEdits(env: Environment)
    requires env.standaloneWindows && env.foundHandle != 0
    ensures !env.hasMainCamera ==> forall c :: c in StartCalls(env) ==> c.SetWindowText?
    ensures env.hasMainCamera ==>
      var calls := StartCalls(env);
      var h := env.foundHandle;
      && SetWindowLong(h, GWL_STYLE, env.style & !FrameBits) in calls
      && SetWindowLong(h, GWL_EXSTYLE, env.exStyle | WS_EX_LAYERED) in calls
      && calls[|calls| - 1] == SetWindowPos(h, HWND_TOPMOST, CentreOrigin(env.screenWidth, 360),
                                            CentreOrigin(env.screenHeight, 640), 360, 640, SWP_SHOWWINDOW)
  {
  }
}
