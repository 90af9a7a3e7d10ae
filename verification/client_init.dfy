/** The session settings the RDP client plugin derives from its argument vector.

    The plugin receives its arguments positionally, in the order of the
    names it publishes (hostname, port, domain, ...). With too few arguments it
    refuses the session with a bad-argument error before anything else happens.
    Otherwise it writes the connection settings into the settings record the
    RDP library has just allocated: each rule depends only on whether an
    argument is empty and on the value `atoi` reads from it. Settings no rule
    writes keep the library's value, which is why that record is an input here.
    Finally the chosen keymap is loaded into a cleared table.
 */
module ClientInit {
  import opened Results
  import opened CStrings
  import opened Keymaps

  /** The argument names, in the order their values arrive. */
  const ClientArgs: seq<string> := [
    "hostname", "port", "domain", "username", "password", "width", "height",
    "initial-program", "color-depth", "disable-audio", "console", "console-audio",
    "vmconnect"
  ]

  const IdxHostname := 0
  const IdxPort := 1
  const IdxDomain := 2
  const IdxUsername := 3
  const IdxPassword := 4
  const IdxWidth := 5
  const IdxHeight := 6
  const IdxInitialProgram := 7
  const IdxColorDepth := 8
  const IdxDisableAudio := 9
  const IdxConsole := 10
  const IdxConsoleAudio := 11
  const IdxVmconnect := 12

  /** The number of arguments the plugin needs. */
  const ArgsCount := 13

  /** Each argument position holds the value of the argument of that name,
      and there are as many names as arguments the plugin needs. */
  lemma ArgumentPositions()
    ensures |ClientArgs| == ArgsCount
    ensures ClientArgs[IdxHostname] == "hostname" && ClientArgs[IdxPort] == "port"
    ensures ClientArgs[IdxDomain] == "domain" && ClientArgs[IdxUsername] == "username"
    ensures ClientArgs[IdxPassword] == "password" && ClientArgs[IdxWidth] == "width"
    ensures ClientArgs[IdxHeight] == "height" && ClientArgs[IdxInitialProgram] == "initial-program"
    ensures ClientArgs[IdxColorDepth] == "color-depth" && ClientArgs[IdxDisableAudio] == "disable-audio"
    ensures ClientArgs[IdxConsole] == "console" && ClientArgs[IdxConsoleAudio] == "console-audio"
    ensures ClientArgs[IdxVmconnect] == "vmconnect"
  {
  }

  /** The port Hyper-V's VM console listens on, used for a VM connection
      when no port was given. */
  const VmconnectPort := 2179

  /** The "unspecified" operating-system type codes of the RDP general
      capability set (section 2.2.7.1.1 of MS-RDPBCGR). */
  const OsMajorTypeUnspecified := 0
  const OsMinorTypeUnspecified := 0

  /** The plugin's built-in fallbacks for port, width, height and color depth. */
  datatype Defaults = Defaults(port: int, width: int, height: int, depth: int)

  /** What the connecting display client advertised about itself. */
  datatype ClientInfo = ClientInfo(optimalWidth: int, optimalHeight: int)

  /** The drawing orders whose support flag the plugin negotiates. */
  datatype Order =
    | DstBlt | PatBlt | ScrBlt | OpaqueRect | DrawNineGrid
    | MultiDstBlt | MultiPatBlt | MultiScrBlt | MultiOpaqueRect | MultiDrawNineGrid
    | LineTo | Polyline | MemBlt | Mem3Blt | MemBltV2 | Mem3BltV2 | SaveBitmap
    | GlyphIndex | FastIndex | FastGlyph | PolygonSC | PolygonCB | EllipseSC | EllipseCB

  const AllOrders: set<Order> := {
    DstBlt, PatBlt, ScrBlt, OpaqueRect, DrawNineGrid,
    MultiDstBlt, MultiPatBlt, MultiScrBlt, MultiOpaqueRect, MultiDrawNineGrid,
    LineTo, Polyline, MemBlt, Mem3Blt, MemBltV2, Mem3BltV2, SaveBitmap,
    GlyphIndex, FastIndex, FastGlyph, PolygonSC, PolygonCB, EllipseSC, EllipseCB
  }

  /** Orders the plugin always draws itself. */
  const AlwaysSupported: set<Order> := {DstBlt, ScrBlt, OpaqueRect, GlyphIndex, FastIndex, FastGlyph}

  /** Orders that draw from the bitmap cache. */
  const CacheOrders: set<Order> := {MemBlt, MemBltV2}

  /** The connection settings the plugin reads or writes. Strings the library
      leaves unset are `None`. */
  datatype Settings = Settings(
    serverHostname: Option<CString>,
    windowTitle: Option<CString>,
    serverPort: int,
    domain: Option<CString>,
    username: Option<CString>,
    password: Option<CString>,
    alternateShell: Option<CString>,
    autoLogonEnabled: bool,
    desktopWidth: int,
    desktopHeight: int,
    colorDepth: int,
    consoleSession: bool,
    remoteConsoleAudio: bool,
    negotiateSecurityLayer: bool,
    sendPreconnectionPdu: bool,
    preconnectionBlob: Option<CString>,
    bitmapCacheEnabled: bool,
    osMajorType: int,
    osMinorType: int,
    orderSupport: map<Order, bool>,
    keyboardLayout: int)

  /** The settings whose invalid values the plugin complains about. */
  datatype Complaint = InvalidWidth | InvalidHeight | InvalidColorDepth

  /** A logged complaint about an invalid argument: what it is about, the
      argument text it quotes, and the default used instead. The plugin logs
      these at error level, although it carries on with the default. */
  datatype Warning = Warning(about: Complaint, quoted: CString, replacement: int)

  /** What a successful start leaves behind: the settings, whether audio is
      wanted, the flat keymap, and the warnings logged on the way. */
  datatype Session = Session(settings: Settings, audioEnabled: bool, keymap: Table, warnings: seq<Warning>)

  datatype InitError = BadArgument(message: string)

  const WrongArgumentCount := BadArgument("Wrong argument count received")

  // ---------------------------------------------------------------------
  // The individual rules
  // ---------------------------------------------------------------------

  /** The value an argument asks for before any check: what `atoi` reads
      from it, or `unset` (the client's optimal size, the default depth)
      when it is empty. */
  function Requested(arg: CString, unset: int): int {
    if IsEmpty(arg) then unset else Atoi(arg)
  }

  /** Width or height: the client's optimal value unless an argument is given,
      and the built-in default when the result is not positive. */
  function Dimension(arg: CString, optimal: int, default: int): (r: int)
    ensures IsEmpty(arg) && optimal > 0 ==> r == optimal
    ensures !IsEmpty(arg) && Atoi(arg) > 0 ==> r == Atoi(arg)
    ensures Requested(arg, optimal) <= 0 ==> r == default
    ensures r > 0 || r == default
  {
    var requested := Requested(arg, optimal);
    if requested <= 0 then default else requested
  }

  /** The server port: an explicit port argument always wins; otherwise a VM
      connection uses the VM console port and anything else the default. */
  function Port(portArg: CString, vmconnectArg: CString, default: int): (r: int)
    ensures !IsEmpty(portArg) ==> r == Atoi(portArg)
    ensures IsEmpty(portArg) && !IsEmpty(vmconnectArg) ==> r == VmconnectPort
    ensures IsEmpty(portArg) && IsEmpty(vmconnectArg) ==> r == default
  {
    var portProvided := !IsEmpty(portArg);
    var port := if portProvided then Atoi(portArg) else default;
    if !IsEmpty(vmconnectArg) && !portProvided then VmconnectPort else port
  }

  /** Color depth: the default unless an argument is given; only a depth of
      exactly 0 falls back, so a negative depth is kept. */
  function ColorDepth(arg: CString, default: int): (r: int)
    ensures IsEmpty(arg) ==> r == default
    ensures !IsEmpty(arg) && Atoi(arg) != 0 ==> r == Atoi(arg)
    ensures !IsEmpty(arg) && Atoi(arg) == 0 ==> r == default
  {
    var depth := Requested(arg, default);
    if depth == 0 then default else depth
  }

  /** The support flag the plugin writes for one order, as listed in its
      order-support block. */
  function OrderFlag(o: Order, bitmapCacheEnabled: bool): (r: bool)
    ensures r <==> o in AlwaysSupported || (bitmapCacheEnabled && o in CacheOrders)
  {
    match o
    case DstBlt => true
    case PatBlt => false
    case ScrBlt => true
    case OpaqueRect => true
    case DrawNineGrid => false
    case MultiDstBlt => false
    case MultiPatBlt => false
    case MultiScrBlt => false
    case MultiOpaqueRect => false
    case MultiDrawNineGrid => false
    case LineTo => false
    case Polyline => false
    case MemBlt => bitmapCacheEnabled
    case Mem3Blt => false
    case MemBltV2 => bitmapCacheEnabled
    case Mem3BltV2 => false
    case SaveBitmap => false
    case GlyphIndex => true
    case FastIndex => true
    case FastGlyph => true
    case PolygonSC => false
    case PolygonCB => false
    case EllipseSC => false
    case EllipseCB => false
  }

  /** The order-support table: one written flag for every negotiated order. */
  function OrderSupport(bitmapCacheEnabled: bool): (r: map<Order, bool>)
    ensures r.Keys == AllOrders
    ensures forall o :: o in r ==> (r[o] <==> o in AlwaysSupported || (bitmapCacheEnabled && o in CacheOrders))
  {
    map o | o in AllOrders :: OrderFlag(o, bitmapCacheEnabled)
  }

  /** A string setting the plugin copies only from a non-empty argument. */
  function CopyIfGiven(arg: CString, current: Option<CString>): (r: Option<CString>)
    ensures IsEmpty(arg) ==> r == current
    ensures !IsEmpty(arg) ==> r == Some(arg)
  {
    if IsEmpty(arg) then current else Some(arg)
  }

  // ---------------------------------------------------------------------
  // Warnings about replaced values
  // ---------------------------------------------------------------------

  /** The position of the argument a complaint is about. */
  function ArgIndex(c: Complaint): (r: nat)
    ensures r < ArgsCount
  {
    match c
    case InvalidWidth => IdxWidth
    case InvalidHeight => IdxHeight
    case InvalidColorDepth => IdxColorDepth
  }

  /** The warning quotes the text of the argument it complains about. */
  predicate QuotesOwnArgument(argv: seq<CString>, w: Warning)
    requires |argv| >= ArgsCount
  {
    argv[ArgIndex(w.about)] == w.quoted
  }

  /** What the warnings of a list are about. */
  function Complaints(ws: seq<Warning>): set<Complaint> {
    set i | 0 <= i < |ws| :: ws[i].about
  }

  /** The value used instead of the invalid one a complaint is about. */
  function Fallback(c: Complaint, defaults: Defaults): int {
    match c
    case InvalidWidth => defaults.width
    case InvalidHeight => defaults.height
    case InvalidColorDepth => defaults.depth
  }

  /** The position of a complaint in the order the checks run: width, height, color depth. */
  function Rank(c: Complaint): nat {
    match c
    case InvalidWidth => 0
    case InvalidHeight => 1
    case InvalidColorDepth => 2
  }

  /** Each warning names the value used instead. */
  predicate NamesFallback(ws: seq<Warning>, defaults: Defaults) {
    forall i :: 0 <= i < |ws| ==> ws[i].replacement == Fallback(ws[i].about, defaults)
  }

  /** At most one warning per setting, in the order width, height, color depth. */
  predicate InCheckOrder(ws: seq<Warning>) {
    forall i, j :: 0 <= i < j < |ws| ==> Rank(ws[i].about) < Rank(ws[j].about)
  }

  /** The requested width is not usable. */
  predicate WidthInvalid(argv: seq<CString>, info: ClientInfo)
    requires |argv| >= ArgsCount
  {
    Requested(argv[IdxWidth], info.optimalWidth) <= 0
  }

  /** The requested height is not usable. */
  predicate HeightInvalid(argv: seq<CString>, info: ClientInfo)
    requires |argv| >= ArgsCount
  {
    Requested(argv[IdxHeight], info.optimalHeight) <= 0
  }

  /** The requested color depth is 0. */
  predicate DepthInvalid(argv: seq<CString>, defaults: Defaults)
    requires |argv| >= ArgsCount
  {
    Requested(argv[IdxColorDepth], defaults.depth) == 0
  }

  /** The warnings logged for an invalid width, height and color depth, each
      quoting the argument it complains about and naming the value used. */
  function Warnings(argv: seq<CString>, info: ClientInfo, defaults: Defaults): (r: seq<Warning>)
    requires |argv| >= ArgsCount
    ensures forall i :: 0 <= i < |r| ==> QuotesOwnArgument(argv, r[i])
    ensures InvalidWidth in Complaints(r) <==> WidthInvalid(argv, info)
    ensures InvalidHeight in Complaints(r) <==> HeightInvalid(argv, info)
    ensures InvalidColorDepth in Complaints(r) <==> DepthInvalid(argv, defaults)
    ensures NamesFallback(r, defaults) && InCheckOrder(r)
  {
    var r := WarningsQuoting(argv, info, defaults, argv[IdxHeight], argv[IdxColorDepth]);
    forall i | 0 <= i < |r|
      ensures QuotesOwnArgument(argv, r[i])
    {
      QuoteForOwnArgument(argv, r[i].about);
    }
    r
  }

  /** The text a warning quotes, given the texts quoted for the height and
      for the color-depth warning. */
  function QuoteFor(c: Complaint, width: CString, height: CString, depth: CString): CString {
    match c
    case InvalidWidth => width
    case InvalidHeight => height
    case InvalidColorDepth => depth
  }

  lemma QuoteForOwnArgument(argv: seq<CString>, c: Complaint)
    requires |argv| >= ArgsCount
    ensures QuoteFor(c, argv[IdxWidth], argv[IdxHeight], argv[IdxColorDepth]) == argv[ArgIndex(c)]
  {
  }

  /** The warning `w` when `invalid`, nothing otherwise. */
  function WarnIf(invalid: bool, w: Warning): (r: seq<Warning>)
    ensures Complaints(r) == if invalid then {w.about} else {}
    ensures |r| <= 1 && forall i :: 0 <= i < |r| ==> r[i] == w
  {
    var r := if invalid then [w] else [];
    assert invalid ==> r[0].about in Complaints(r);
    r
  }

  /** The warnings the plugin logs, quoting `heightText` in the height warning
      and `depthText` in the color-depth warning. */
  function WarningsQuoting(argv: seq<CString>, info: ClientInfo, defaults: Defaults, heightText: CString, depthText: CString): (r: seq<Warning>)
    requires |argv| >= ArgsCount
    ensures InvalidWidth in Complaints(r) <==> WidthInvalid(argv, info)
    ensures InvalidHeight in Complaints(r) <==> HeightInvalid(argv, info)
    ensures InvalidColorDepth in Complaints(r) <==> DepthInvalid(argv, defaults)
    ensures forall i :: 0 <= i < |r| ==> r[i].quoted == QuoteFor(r[i].about, argv[IdxWidth], heightText, depthText)
    ensures NamesFallback(r, defaults) && InCheckOrder(r)
  {
    var width := WarnIf(WidthInvalid(argv, info), Warning(InvalidWidth, argv[IdxWidth], defaults.width));
    var height := WarnIf(HeightInvalid(argv, info), Warning(InvalidHeight, heightText, defaults.height));
    var depth := WarnIf(DepthInvalid(argv, defaults), Warning(InvalidColorDepth, depthText, defaults.depth));
    JoinWarnings(argv[IdxWidth], heightText, depthText, width, height, depth);
    JoinInOrder(defaults, width, height, depth);
    width + height + depth
  }

  /** Joining three warning lists keeps what each is about and what each quotes. */
  lemma JoinWarnings(width: CString, height: CString, depth: CString, a: seq<Warning>, b: seq<Warning>, c: seq<Warning>)
    requires forall i :: 0 <= i < |a| ==> a[i].quoted == QuoteFor(a[i].about, width, height, depth)
    requires forall i :: 0 <= i < |b| ==> b[i].quoted == QuoteFor(b[i].about, width, height, depth)
    requires forall i :: 0 <= i < |c| ==> c[i].quoted == QuoteFor(c[i].about, width, height, depth)
    ensures Complaints(a + b + c) == Complaints(a) + Complaints(b) + Complaints(c)
    ensures forall i :: 0 <= i < |a + b + c| ==> (a + b + c)[i].quoted == QuoteFor((a + b + c)[i].about, width, height, depth)
  {
    ComplaintsAppend(a + b, c);
    ComplaintsAppend(a, b);
    forall i | 0 <= i < |a + b + c|
      ensures (a + b + c)[i].quoted == QuoteFor((a + b + c)[i].about, width, height, depth)
    {
      if i < |a| {
        assert (a + b + c)[i] == a[i];
      } else if i < |a| + |b| {
        assert (a + b + c)[i] == b[i - |a|];
      } else {
        assert (a + b + c)[i] == c[i - |a| - |b|];
      }
    }
  }

  /** Joining the width, height and depth lists, each of at most one warning
      naming its fallback, gives a list in check order that names its fallbacks. */
  lemma JoinInOrder(defaults: Defaults, a: seq<Warning>, b: seq<Warning>, c: seq<Warning>)
    requires |a| <= 1 && |b| <= 1 && |c| <= 1
    requires forall i :: 0 <= i < |a| ==> a[i].about == InvalidWidth && a[i].replacement == defaults.width
    requires forall i :: 0 <= i < |b| ==> b[i].about == InvalidHeight && b[i].replacement == defaults.height
    requires forall i :: 0 <= i < |c| ==> c[i].about == InvalidColorDepth && c[i].replacement == defaults.depth
    ensures NamesFallback(a + b + c, defaults) && InCheckOrder(a + b + c)
  {
    var r := a + b + c;
    forall i | 0 <= i < |r|
      ensures Rank(r[i].about) == (if i < |a| then 0 else if i < |a| + |b| then 1 else 2)
      ensures r[i].replacement == Fallback(r[i].about, defaults)
    {
      if i < |a| {
        assert r[i] == a[i];
      } else if i < |a| + |b| {
        assert r[i] == b[i - |a|];
      } else {
        assert r[i] == c[i - |a| - |b|];
      }
    }
  }

  lemma ComplaintsAppend(a: seq<Warning>, b: seq<Warning>)
    ensures Complaints(a + b) == Complaints(a) + Complaints(b)
  {
    forall x | x in Complaints(a + b)
      ensures x in Complaints(a) + Complaints(b)
    {
      var i :| 0 <= i < |a + b| && (a + b)[i].about == x;
      if i < |a| {
        assert a[i].about == x;
      } else {
        assert b[i - |a|].about == x;
      }
    }
    forall x | x in Complaints(a)
      ensures x in Complaints(a + b)
    {
      var i :| 0 <= i < |a| && a[i].about == x;
      assert (a + b)[i].about == x;
    }
    forall x | x in Complaints(b)
      ensures x in Complaints(a + b)
    {
      var i :| 0 <= i < |b| && b[i].about == x;
      assert (a + b)[|a| + i].about == x;
    }
  }

  /** The warnings exactly as the plugin logs them: the height and the color
      depth warnings both quote the width argument. */
  function WarningsAsWritten(argv: seq<CString>, info: ClientInfo, defaults: Defaults): (r: seq<Warning>)
    requires |argv| >= ArgsCount
    ensures forall i :: 0 <= i < |r| ==> r[i].quoted == argv[IdxWidth]
    ensures InvalidWidth in Complaints(r) <==> WidthInvalid(argv, info)
    ensures InvalidHeight in Complaints(r) <==> HeightInvalid(argv, info)
    ensures InvalidColorDepth in Complaints(r) <==> DepthInvalid(argv, defaults)
    ensures NamesFallback(r, defaults) && InCheckOrder(r)
  {
    WarningsQuoting(argv, info, defaults, argv[IdxWidth], argv[IdxWidth])
  }

  /** Arguments that are all empty except a width of "800" and the one given. */
  function WidthAnd(index: nat, arg: CString): (argv: seq<CString>)
    ensures |argv| == ArgsCount
  {
    seq(ArgsCount, j => if j == IdxWidth then "800" else if j == index then arg else "")
  }

  /** An empty height argument with a client that advertises no usable height:
      the logged height warning quotes the width "800", not the height. */
  lemma HeightWarningQuotesWidth()
    ensures var argv := WidthAnd(IdxHeight, "");
      var ws := WarningsAsWritten(argv, ClientInfo(1024, 0), Defaults(3389, 1024, 768, 16));
      exists i :: 0 <= i < |ws| && ws[i].about == InvalidHeight && !QuotesOwnArgument(argv, ws[i])
  {
    var argv := WidthAnd(IdxHeight, "");
    var ws := WarningsAsWritten(argv, ClientInfo(1024, 0), Defaults(3389, 1024, 768, 16));
    assert Requested(argv[IdxHeight], 0) == 0;
    assert InvalidHeight in Complaints(ws);
    var i :| 0 <= i < |ws| && ws[i].about == InvalidHeight;
    assert argv[IdxHeight] != argv[IdxWidth];
  }

  /** A color depth given as "0": the logged warning quotes the width "800". */
  lemma DepthWarningQuotesWidth()
    ensures var argv := WidthAnd(IdxColorDepth, "0");
      var ws := WarningsAsWritten(argv, ClientInfo(1024, 768), Defaults(3389, 1024, 768, 16));
      exists i :: 0 <= i < |ws| && ws[i].about == InvalidColorDepth && !QuotesOwnArgument(argv, ws[i])
  {
    var argv := WidthAnd(IdxColorDepth, "0");
    AtoiOfIntToString(0);
    assert argv[IdxColorDepth] == IntToString(0);
    var ws := WarningsAsWritten(argv, ClientInfo(1024, 768), Defaults(3389, 1024, 768, 16));
    assert InvalidColorDepth in Complaints(ws);
    var i :| 0 <= i < |ws| && ws[i].about == InvalidColorDepth;
    assert argv[IdxColorDepth] != argv[IdxWidth];
  }

  // ---------------------------------------------------------------------
  // The whole derivation
  // ---------------------------------------------------------------------

  /** The settings derived from enough arguments: every written field as the
      plugin documents it, every other field as the library left it. */
  function Configure(argv: seq<CString>, info: ClientInfo, initial: Settings, defaults: Defaults, layout: int): Settings
    requires |argv| >= ArgsCount
  {
    var vmconnect := argv[IdxVmconnect];
    var password := argv[IdxPassword];
    initial.(
      consoleSession := argv[IdxConsole] == "true",
      remoteConsoleAudio := argv[IdxConsoleAudio] == "true",
      desktopWidth := Dimension(argv[IdxWidth], info.optimalWidth, defaults.width),
      desktopHeight := Dimension(argv[IdxHeight], info.optimalHeight, defaults.height),
      serverHostname := Some(argv[IdxHostname]),
      windowTitle := Some(argv[IdxHostname]),
      negotiateSecurityLayer := if IsEmpty(vmconnect) then initial.negotiateSecurityLayer else false,
      sendPreconnectionPdu := if IsEmpty(vmconnect) then initial.sendPreconnectionPdu else true,
      preconnectionBlob := CopyIfGiven(vmconnect, initial.preconnectionBlob),
      serverPort := Port(argv[IdxPort], vmconnect, defaults.port),
      domain := CopyIfGiven(argv[IdxDomain], initial.domain),
      username := CopyIfGiven(argv[IdxUsername], initial.username),
      password := CopyIfGiven(password, initial.password),
      autoLogonEnabled := if IsEmpty(password) then initial.autoLogonEnabled else true,
      alternateShell := CopyIfGiven(argv[IdxInitialProgram], initial.alternateShell),
      colorDepth := ColorDepth(argv[IdxColorDepth], defaults.depth),
      osMajorType := OsMajorTypeUnspecified,
      osMinorType := OsMinorTypeUnspecified,
      orderSupport := OrderSupport(initial.bitmapCacheEnabled),
      keyboardLayout := layout)
  }

  /** The declarative account of a derived session: what each argument means
      for the settings, the audio flag and the keymap. */
  ghost predicate Honours(argv: seq<CString>, info: ClientInfo, initial: Settings, defaults: Defaults, chosen: Keymap, session: Session)
    requires |argv| >= ArgsCount
  {
    var s := session.settings;
    var vmconnect := argv[IdxVmconnect];
    // hostname and window title
    && s.serverHostname == Some(argv[IdxHostname]) && s.windowTitle == Some(argv[IdxHostname])
    // port: an explicit port is never overridden
    && (!IsEmpty(argv[IdxPort]) ==> s.serverPort == Atoi(argv[IdxPort]))
    && (IsEmpty(argv[IdxPort]) ==> s.serverPort == (if IsEmpty(vmconnect) then defaults.port else VmconnectPort))
    // a VM connection turns off security negotiation and sends the blob first
    && (!IsEmpty(vmconnect) ==> !s.negotiateSecurityLayer && s.sendPreconnectionPdu && s.preconnectionBlob == Some(vmconnect))
    && (IsEmpty(vmconnect) ==>
          s.negotiateSecurityLayer == initial.negotiateSecurityLayer
          && s.sendPreconnectionPdu == initial.sendPreconnectionPdu
          && s.preconnectionBlob == initial.preconnectionBlob)
    // credentials and initial program are copied only when given
    && s.domain == (if IsEmpty(argv[IdxDomain]) then initial.domain else Some(argv[IdxDomain]))
    && s.username == (if IsEmpty(argv[IdxUsername]) then initial.username else Some(argv[IdxUsername]))
    && s.alternateShell == (if IsEmpty(argv[IdxInitialProgram]) then initial.alternateShell else Some(argv[IdxInitialProgram]))
    && (!IsEmpty(argv[IdxPassword]) ==> s.password == Some(argv[IdxPassword]) && s.autoLogonEnabled)
    && (IsEmpty(argv[IdxPassword]) ==> s.password == initial.password && s.autoLogonEnabled == initial.autoLogonEnabled)
    // dimensions: the argument, else the optimal size; the default when that is not positive
    && (IsEmpty(argv[IdxWidth]) && info.optimalWidth > 0 ==> s.desktopWidth == info.optimalWidth)
    && (!IsEmpty(argv[IdxWidth]) && Atoi(argv[IdxWidth]) > 0 ==> s.desktopWidth == Atoi(argv[IdxWidth]))
    && (WidthInvalid(argv, info) ==> s.desktopWidth == defaults.width)
    && (IsEmpty(argv[IdxHeight]) && info.optimalHeight > 0 ==> s.desktopHeight == info.optimalHeight)
    && (!IsEmpty(argv[IdxHeight]) && Atoi(argv[IdxHeight]) > 0 ==> s.desktopHeight == Atoi(argv[IdxHeight]))
    && (HeightInvalid(argv, info) ==> s.desktopHeight == defaults.height)
    // color depth: the argument unless it is absent or reads as 0
    && s.colorDepth == (if Requested(argv[IdxColorDepth], defaults.depth) == 0 then defaults.depth else Requested(argv[IdxColorDepth], defaults.depth))
    // flags compared against the literal "true"
    && (s.consoleSession <==> argv[IdxConsole] == "true")
    && (s.remoteConsoleAudio <==> argv[IdxConsoleAudio] == "true")
    && (session.audioEnabled <==> argv[IdxDisableAudio] != "true")
    // capabilities
    && s.bitmapCacheEnabled == initial.bitmapCacheEnabled
    && s.osMajorType == OsMajorTypeUnspecified && s.osMinorType == OsMinorTypeUnspecified
    && s.orderSupport.Keys == AllOrders
    && (forall o :: o in s.orderSupport ==> (s.orderSupport[o] <==> o in AlwaysSupported || (initial.bitmapCacheEnabled && o in CacheOrders)))
    // keymap
    && s.keyboardLayout == chosen.layout
    && session.keymap == LoadKeymap(Cleared, chosen)
    // the corrected warnings: one exactly for each value that fell back, each
    // quoting its own argument (the plugin's own height and color-depth
    // warnings quote the width argument instead; see WarningsAsWritten)
    && (forall i :: 0 <= i < |session.warnings| ==> QuotesOwnArgument(argv, session.warnings[i]))
    && (InvalidWidth in Complaints(session.warnings) <==> WidthInvalid(argv, info))
    && (InvalidHeight in Complaints(session.warnings) <==> HeightInvalid(argv, info))
    && (InvalidColorDepth in Complaints(session.warnings) <==> DepthInvalid(argv, defaults))
    && NamesFallback(session.warnings, defaults) && InCheckOrder(session.warnings)
  }

  /** The plugin's start-up, up to the point where it connects: refuse a short
      argument vector, otherwise derive the settings and load the keymap. */
  function Init(argv: seq<CString>, info: ClientInfo, initial: Settings, defaults: Defaults, chosen: Keymap): (r: Result<Session, InitError>)
    ensures r.Failure? <==> |argv| < ArgsCount
    ensures r.Failure? ==> r.error == WrongArgumentCount
    ensures r.Success? ==> Honours(argv, info, initial, defaults, chosen, r.value)
  {
    if |argv| < ArgsCount then Failure(WrongArgumentCount)
    else
      var settings := Configure(argv, info, initial, defaults, chosen.layout);
      var audioEnabled := argv[IdxDisableAudio] != "true";
      Success(Session(settings, audioEnabled, LoadClientKeymap(chosen), Warnings(argv, info, defaults)))
  }

  // ---------------------------------------------------------------------
  // Consequences
  // ---------------------------------------------------------------------

  /** With positive built-in defaults the desktop always has a positive size. */
  lemma DimensionsPositive(argv: seq<CString>, info: ClientInfo, initial: Settings, defaults: Defaults, chosen: Keymap)
    requires defaults.width > 0 && defaults.height > 0
    requires |argv| >= ArgsCount
    ensures Init(argv, info, initial, defaults, chosen).Success?
    ensures Init(argv, info, initial, defaults, chosen).value.settings.desktopWidth > 0
    ensures Init(argv, info, initial, defaults, chosen).value.settings.desktopHeight > 0
  {
  }

  /** A positive width or height written out in decimal is used exactly. */
  lemma ExplicitDimensionHonoured(argv: seq<CString>, info: ClientInfo, initial: Settings, defaults: Defaults, chosen: Keymap, w: int, h: int)
    requires |argv| >= ArgsCount && w > 0 && h > 0
    requires argv[IdxWidth] == IntToString(w) && argv[IdxHeight] == IntToString(h)
    ensures Init(argv, info, initial, defaults, chosen).Success?
    ensures Init(argv, info, initial, defaults, chosen).value.settings.desktopWidth == w
    ensures Init(argv, info, initial, defaults, chosen).value.settings.desktopHeight == h
  {
    AtoiOfIntToString(w);
    AtoiOfIntToString(h);
  }

  /** A width argument with no digit after its leading white space and
      optional sign reads as 0, so the default width is used and the width
      warning is logged. */
  lemma NonNumericWidthFallsBack(argv: seq<CString>, info: ClientInfo, initial: Settings, defaults: Defaults, chosen: Keymap)
    requires |argv| >= ArgsCount && !IsEmpty(argv[IdxWidth])
    requires var t := SkipSpace(argv[IdxWidth]);
      var u := if |t| > 0 && (t[0] == '-' || t[0] == '+') then t[1..] else t;
      |u| == 0 || !IsDigit(u[0])
    ensures Init(argv, info, initial, defaults, chosen).Success?
    ensures Init(argv, info, initial, defaults, chosen).value.settings.desktopWidth == defaults.width
    ensures InvalidWidth in Complaints(Init(argv, info, initial, defaults, chosen).value.warnings)
  {
    AtoiWithoutDigits(argv[IdxWidth]);
  }

  /** A port given in decimal is used as is, VM connection or not. */
  lemma ExplicitPortNeverOverridden(argv: seq<CString>, info: ClientInfo, initial: Settings, defaults: Defaults, chosen: Keymap, port: int)
    requires |argv| >= ArgsCount && argv[IdxPort] == IntToString(port)
    ensures Init(argv, info, initial, defaults, chosen).Success?
    ensures Init(argv, info, initial, defaults, chosen).value.settings.serverPort == port
  {
    AtoiOfIntToString(port);
  }

  /** Any non-zero depth written in decimal is kept, negative ones included. */
  lemma NonZeroDepthKept(argv: seq<CString>, info: ClientInfo, initial: Settings, defaults: Defaults, chosen: Keymap, depth: int)
    requires |argv| >= ArgsCount && depth != 0 && argv[IdxColorDepth] == IntToString(depth)
    ensures Init(argv, info, initial, defaults, chosen).Success?
    ensures Init(argv, info, initial, defaults, chosen).value.settings.colorDepth == depth
  {
    AtoiOfIntToString(depth);
  }

  /** Only the first thirteen arguments matter: extra ones change nothing. */
  lemma ExtraArgumentsIgnored(argv: seq<CString>, extra: seq<CString>, info: ClientInfo, initial: Settings, defaults: Defaults, chosen: Keymap)
    requires |argv| >= ArgsCount
    ensures Init(argv + extra, info, initial, defaults, chosen) == Init(argv, info, initial, defaults, chosen)
  {
    ConfigureIgnoresExtra(argv, extra, info, initial, defaults, chosen.layout);
    WarningsIgnoreExtra(argv, extra, info, defaults);
  }

  lemma ConfigureIgnoresExtra(argv: seq<CString>, extra: seq<CString>, info: ClientInfo, initial: Settings, defaults: Defaults, layout: int)
    requires |argv| >= ArgsCount
    ensures Configure(argv + extra, info, initial, defaults, layout) == Configure(argv, info, initial, defaults, layout)
  {
    var all := argv + extra;
    assert all[IdxHostname] == argv[IdxHostname] && all[IdxPort] == argv[IdxPort];
    assert all[IdxDomain] == argv[IdxDomain] && all[IdxUsername] == argv[IdxUsername];
    assert all[IdxPassword] == argv[IdxPassword] && all[IdxWidth] == argv[IdxWidth];
    assert all[IdxHeight] == argv[IdxHeight] && all[IdxInitialProgram] == argv[IdxInitialProgram];
    assert all[IdxColorDepth] == argv[IdxColorDepth] && all[IdxDisableAudio] == argv[IdxDisableAudio];
    assert all[IdxConsole] == argv[IdxConsole] && all[IdxConsoleAudio] == argv[IdxConsoleAudio];
    assert all[IdxVmconnect] == argv[IdxVmconnect];
  }

  lemma WarningsIgnoreExtra(argv: seq<CString>, extra: seq<CString>, info: ClientInfo, defaults: Defaults)
    requires |argv| >= ArgsCount
    ensures Warnings(argv + extra, info, defaults) == Warnings(argv, info, defaults)
  {
    var all := argv + extra;
    assert all[IdxWidth] == argv[IdxWidth] && all[IdxHeight] == argv[IdxHeight];
    assert all[IdxColorDepth] == argv[IdxColorDepth];
  }

  /** The keymap a session starts with gives every keysym the last entry its
      keymap chain defines for it, and zero to every other keysym. */
  lemma SessionKeymapLastWins(argv: seq<CString>, info: ClientInfo, initial: Settings, defaults: Defaults, chosen: Keymap, i: int)
    requires |argv| >= ArgsCount && LastFor(ChainEntries(chosen), i)
    ensures Init(argv, info, initial, defaults, chosen).Success?
    ensures Lookup(Init(argv, info, initial, defaults, chosen).value.keymap, ChainEntries(chosen)[i].keysym) == ChainEntries(chosen)[i]
    ensures forall k :: k !in Keysyms(ChainEntries(chosen)) ==> Lookup(Init(argv, info, initial, defaults, chosen).value.keymap, k) == Zero
  {
    LoadKeymapLastWins(Cleared, chosen, i);
  }
}
