/** Port-forward specifications: `[address:]port[:port]`, where each port may be
    a range, in comma-separated lists for TCP and for UDP. */
module Forward {
  import opened Wrappers
  import opened Text
  import opened Keys

  type Port = p: nat | 1 <= p < 0x1_0000 witness 1

  datatype IPv4 = IPv4(a: Byte, b: Byte, c: Byte, d: Byte)

  datatype AddrPort = AddrPort(addr: IPv4, port: Port)

  const LOOPBACK := IPv4(127, 0, 0, 1)

  datatype Network = TCP | UDP

  datatype Mapping = Mapping(local: AddrPort, remote: AddrPort)

  datatype ForwardSpec = ForwardSpec(
    listenNetwork: Network,
    listenAddress: AddrPort,
    dialNetwork: Network,
    dialAddress: AddrPort)

  datatype Error =
    | NotANumber(text: string)
    | PortZero
    | NotARange(text: string)
    | RangeStart(text: string, cause: Error)
    | RangeEnd(text: string, cause: Error)
    | Reversed(first: Port, last: Port)
    | BadSpec(text: string)
    | BadAddress(text: string, address: string)
    | LocalPort(text: string, cause: Error)
    | RemotePort(text: string, cause: Error)
    | LocalRange(text: string, cause: Error)
    | RemoteRange(text: string, cause: Error)
    | LengthsDiffer(locals: nat, remotes: nat)
    | BadForward(network: Network, text: string, cause: Error)
    | Repeated(network: Network, local: AddrPort)

  // ----- addresses and ports -----

  predicate IsOctet(s: string) {
    s != "" && AllDigits(s) && (s[0] == '0' ==> |s| == 1) && Value(s) < 256
  }

  /** An address without a colon can only be an IPv4 address: four decimal octets
      without leading zeros. */
  function ParseAddr(s: string): Option<IPv4>
    requires ':' !in s
  {
    var f := Split(s, '.');
    if |f| == 4 && IsOctet(f[0]) && IsOctet(f[1]) && IsOctet(f[2]) && IsOctet(f[3]) then
      Some(IPv4(Value(f[0]), Value(f[1]), Value(f[2]), Value(f[3])))
    else
      None
  }

  function ParsePort(text: string): Result<Port, Error> {
    var word := TrimSpace(text);
    if word == "" || !AllDigits(word) || Value(word) >= 0x1_0000 then Err(NotANumber(text))
    else if Value(word) == 0 then Err(PortZero)
    else Ok(Value(word))
  }

  /** `text` is a number, leading zeros allowed, with white space around it. */
  ghost predicate Spells(text: string, n: nat) {
    exists lead, word, trail :: SpellsBy(text, lead, word, trail, n)
  }

  ghost predicate SpellsBy(text: string, lead: string, word: string, trail: string, n: nat) {
    && AllSpaces(lead) && AllDigits(word) && AllSpaces(trail)
    && text == lead + word + trail
    && word != "" && Value(word) == n
  }

  lemma SpeltTrimmed(text: string, n: nat)
    ensures Spells(text, n) <==> (TrimSpace(text) != "" && AllDigits(TrimSpace(text)) && Value(TrimSpace(text)) == n)
  {
    var word := TrimSpace(text);
    if word != "" && AllDigits(word) && Value(word) == n {
      var lead, trail := TrimSpaceSplits(text);
      assert SpellsBy(text, lead, word, trail, n);
    }
    if lead, w, trail :| SpellsBy(text, lead, w, trail, n) {
      TrimSpaceFinds(lead, w, trail);
    }
  }

  /** A port is read exactly from the texts that spell it; 0 and anything that is
      no number below 65536 are refused as what they are. */
  lemma PortReadIffSpelt(text: string, p: Port)
    ensures ParsePort(text) == Ok(p) <==> Spells(text, p)
    ensures ParsePort(text) == Err(PortZero) <==> Spells(text, 0)
    ensures ParsePort(text) == Err(NotANumber(text)) <==> forall n: nat :: n < 0x1_0000 ==> !Spells(text, n)
  {
    SpeltTrimmed(text, p);
    SpeltTrimmed(text, 0);
    forall n: nat ensures Spells(text, n) <==> (TrimSpace(text) != "" && AllDigits(TrimSpace(text)) && Value(TrimSpace(text)) == n) {
      SpeltTrimmed(text, n);
    }
    hide Spells, TrimSpace, Value;
    var word := TrimSpace(text);
    if word != "" && AllDigits(word) && Value(word) < 0x1_0000 {
      assert Spells(text, Value(word));
    }
  }

  // ----- ranges -----

  /** `n` ports counting up from `first`. */
  predicate Counts(ports: seq<Port>, first: Port, n: nat) {
    |ports| == n && forall i :: 0 <= i < n ==> ports[i] == first + i
  }

  function PortsFrom(first: Port, n: nat): (ports: seq<Port>)
    requires first + n <= 0x1_0000
    ensures Counts(ports, first, n)
  {
    seq(n, i requires 0 <= i < n => first + i)
  }

  function PortRange(text: string): (r: Result<seq<Port>, Error>)
    ensures r.Ok? ==> r.value != []
  {
    var parts := Split(text, '-');
    if |parts| != 2 then Err(NotARange(text))
    else
      match ParsePort(parts[0])
      case Err(e) => Err(RangeStart(text, e))
      case Ok(first) =>
        match ParsePort(parts[1])
        case Err(e) => Err(RangeEnd(text, e))
        case Ok(last) =>
          if last < first then Err(Reversed(first, last)) else Ok(PortsFrom(first, last - first + 1))
  }

  /** The counter is wider than a port, so that a range up to 65535 ends. */
  method ParsePortRange(text: string) returns (r: Result<seq<Port>, Error>)
    ensures r == PortRange(text)
  {
    var parts := Split(text, '-');
    if |parts| != 2 {
      return Err(NotARange(text));
    }
    var start := ParsePort(parts[0]);
    if start.Err? {
      return Err(RangeStart(text, start.error));
    }
    var end := ParsePort(parts[1]);
    if end.Err? {
      return Err(RangeEnd(text, end.error));
    }
    if end.value < start.value {
      return Err(Reversed(start.value, end.value));
    }
    var ports: seq<Port> := [];
    var i: nat := start.value;
    while i <= end.value
      invariant start.value <= i <= end.value + 1
      invariant Counts(ports, start.value, i - start.value)
    {
      ports := ports + [i];
      i := i + 1;
    }
    assert ports == PortsFrom(start.value, end.value - start.value + 1);
    r := Ok(ports);
  }

  // ----- one specification -----

  /** The local address and the two port parts of a specification. */
  datatype Shape = Shape(local: IPv4, localPorts: string, remotePorts: string)

  function ShapeOf(text: string): Result<Shape, Error> {
    var parts := Split(text, ':');
    if |parts| == 1 then Ok(Shape(LOOPBACK, parts[0], parts[0]))
    else if |parts| == 2 then
      match ParseAddr(parts[0])
      case None => Ok(Shape(LOOPBACK, parts[0], parts[1]))
      case Some(a) => Ok(Shape(a, parts[1], parts[1]))
    else if |parts| == 3 then
      match ParseAddr(parts[0])
      case None => Err(BadAddress(text, parts[0]))
      case Some(a) => Ok(Shape(a, parts[1], parts[2]))
    else Err(BadSpec(text))
  }

  /** Local ports of `addr` forwarded one by one to ports of the loopback address. */
  function Aligned(addr: IPv4, locals: seq<Port>, remotes: seq<Port>): (ms: seq<Mapping>)
    requires |locals| == |remotes|
    ensures |ms| == |locals|
    ensures forall i :: 0 <= i < |ms| ==> ms[i] == Mapping(AddrPort(addr, locals[i]), AddrPort(LOOPBACK, remotes[i]))
  {
    seq(|locals|, i requires 0 <= i < |locals| =>
      Mapping(AddrPort(addr, locals[i]), AddrPort(LOOPBACK, remotes[i])))
  }

  function SrcDest(text: string): Result<seq<Mapping>, Error> {
    match ShapeOf(text)
    case Err(e) => Err(e)
    case Ok(shape) =>
      if '-' !in shape.localPorts then
        match ParsePort(shape.localPorts)
        case Err(e) => Err(LocalPort(text, e))
        case Ok(l) =>
          match ParsePort(shape.remotePorts)
          case Err(e) => Err(RemotePort(text, e))
          case Ok(r) => Ok(Aligned(shape.local, [l], [r]))
      else
        match PortRange(shape.localPorts)
        case Err(e) => Err(LocalRange(text, e))
        case Ok(ls) =>
          match PortRange(shape.remotePorts)
          case Err(e) => Err(RemoteRange(text, e))
          case Ok(rs) =>
            if |ls| != |rs| then Err(LengthsDiffer(|ls|, |rs|)) else Ok(Aligned(shape.local, ls, rs))
  }

  method ParseSrcDestPorts(text: string) returns (r: Result<seq<Mapping>, Error>)
    ensures r == SrcDest(text)
  {
    hide ParsePort, PortRange, ParseAddr;
    var parts := Split(text, ':');
    var localAddr, remoteAddr := LOOPBACK, LOOPBACK;
    if |parts| == 1 {
      parts := parts + [parts[0]];
    } else if |parts| == 2 {
      var addr := ParseAddr(parts[0]);
      if addr.Some? {
        localAddr := addr.value;
        parts := [parts[1], parts[1]];
      }
    } else if |parts| == 3 {
      var addr := ParseAddr(parts[0]);
      if addr.None? {
        return Err(BadAddress(text, parts[0]));
      }
      localAddr := addr.value;
      parts := parts[1..];
    } else {
      return Err(BadSpec(text));
    }
    assert ShapeOf(text) == Ok(Shape(localAddr, parts[0], parts[1]));

    if '-' !in parts[0] {
      var localPort := ParsePort(parts[0]);
      if localPort.Err? {
        return Err(LocalPort(text, localPort.error));
      }
      var remotePort := ParsePort(parts[1]);
      if remotePort.Err? {
        return Err(RemotePort(text, remotePort.error));
      }
      var only := [Mapping(AddrPort(localAddr, localPort.value), AddrPort(remoteAddr, remotePort.value))];
      assert only == Aligned(localAddr, [localPort.value], [remotePort.value]);
      return Ok(only);
    }

    var locals := ParsePortRange(parts[0]);
    if locals.Err? {
      return Err(LocalRange(text, locals.error));
    }
    var remotes := ParsePortRange(parts[1]);
    if remotes.Err? {
      return Err(RemoteRange(text, remotes.error));
    }
    if |locals.value| != |remotes.value| {
      return Err(LengthsDiffer(|locals.value|, |remotes.value|));
    }
    var out := [];
    for i := 0 to |locals.value|
      invariant out == Aligned(localAddr, locals.value[..i], remotes.value[..i])
    {
      out := out + [Mapping(AddrPort(localAddr, locals.value[i]), AddrPort(remoteAddr, remotes.value[i]))];
    }
    assert locals.value == locals.value[..|out|] && remotes.value == remotes.value[..|out|];
    r := Ok(out);
  }

  // ----- lists of specifications -----

  function Pieces(entries: seq<string>): seq<string> {
    if entries == [] then [] else Split(entries[0], ',') + Pieces(entries[1..])
  }

  /** The forward of a mapping listens and dials on the same network. */
  predicate IsForward(s: ForwardSpec, network: Network, m: Mapping) {
    && s.listenNetwork == network && s.dialNetwork == network
    && s.listenAddress == m.local && s.dialAddress == m.remote
  }

  predicate AreForwards(specs: seq<ForwardSpec>, network: Network, ms: seq<Mapping>) {
    |specs| == |ms| && forall i :: 0 <= i < |ms| ==> IsForward(specs[i], network, ms[i])
  }

  function Tagged(network: Network, ms: seq<Mapping>): (specs: seq<ForwardSpec>)
    ensures AreForwards(specs, network, ms)
  {
    seq(|ms|, i requires 0 <= i < |ms| => ForwardSpec(network, ms[i].local, network, ms[i].remote))
  }

  /** The forwards of all pieces in order, or the first error. */
  function Collected(network: Network, pieces: seq<string>): Result<seq<ForwardSpec>, Error> {
    if pieces == [] then Ok([])
    else
      match SrcDest(pieces[0])
      case Err(e) => Err(BadForward(network, pieces[0], e))
      case Ok(ms) => After(Tagged(network, ms), Collected(network, pieces[1..]))
  }

  function After(done: seq<ForwardSpec>, rest: Result<seq<ForwardSpec>, Error>): Result<seq<ForwardSpec>, Error> {
    match rest
    case Err(e) => Err(e)
    case Ok(specs) => Ok(done + specs)
  }

  function NetworkName(n: Network): string {
    match n
    case TCP => "tcp"
    case UDP => "udp"
  }

  function AddrName(a: IPv4): string {
    Itoa(a.a) + ['.'] + (Itoa(a.b) + ['.'] + (Itoa(a.c) + ['.'] + Itoa(a.d)))
  }

  /** What the search for repeated listeners compares. */
  function LocalName(s: ForwardSpec): string {
    NetworkName(s.listenNetwork) + [':'] + (AddrName(s.listenAddress.addr) + [':'] + Itoa(s.listenAddress.port))
  }

  predicate SameListener(s: ForwardSpec, t: ForwardSpec) {
    s.listenNetwork == t.listenNetwork && s.listenAddress == t.listenAddress
  }

  /** The first forward from `from` on that listens where an earlier one does. */
  function FirstRepeat(specs: seq<ForwardSpec>, from: nat): Option<ForwardSpec>
    requires from <= |specs|
    decreases |specs| - from
  {
    if from == |specs| then None
    else if exists j :: 0 <= j < from && SameListener(specs[j], specs[from]) then Some(specs[from])
    else FirstRepeat(specs, from + 1)
  }

  function Checked(specs: seq<ForwardSpec>): Result<seq<ForwardSpec>, Error> {
    match FirstRepeat(specs, 0)
    case Some(s) => Err(Repeated(s.listenNetwork, s.listenAddress))
    case None => Ok(specs)
  }

  function Forwards(tcp: seq<string>, udp: seq<string>): Result<seq<ForwardSpec>, Error> {
    match Collected(TCP, Pieces(tcp))
    case Err(e) => Err(e)
    case Ok(t) =>
      match Collected(UDP, Pieces(udp))
      case Err(e) => Err(e)
      case Ok(u) =>
        Checked(t + u)
  }

  /** Appends the forwards of one network's entries. */
  method AppendForwards(network: Network, entries: seq<string>, specs: seq<ForwardSpec>)
      returns (r: Result<seq<ForwardSpec>, Error>)
    ensures r == After(specs, Collected(network, Pieces(entries)))
  {
    hide SrcDest, Split, Tagged;
    var out := specs;
    assert entries == entries[0..];
    for i := 0 to |entries|
      invariant After(specs, Collected(network, Pieces(entries))) == After(out, Collected(network, Pieces(entries[i..])))
    {
      var pieces := Split(entries[i], ',');
      ghost var later := Pieces(entries[i + 1..]);
      assert entries[i..][1..] == entries[i + 1..] && pieces[0..] + later == pieces + later;
      for j := 0 to |pieces|
        invariant After(specs, Collected(network, Pieces(entries))) == After(out, Collected(network, pieces[j..] + later))
      {
        ghost var rest := pieces[j..] + later;
        assert rest[0] == pieces[j] && rest[1..] == pieces[j + 1..] + later;
        var ms := ParseSrcDestPorts(pieces[j]);
        if ms.Err? {
          return Err(BadForward(network, pieces[j], ms.error));
        }
        AfterTwice(out, Tagged(network, ms.value), Collected(network, rest[1..]));
        out := out + Tagged(network, ms.value);
      }
      assert pieces[|pieces|..] + later == later;
    }
    assert out + [] == out;
    r := Ok(out);
  }

  lemma AfterTwice(x: seq<ForwardSpec>, y: seq<ForwardSpec>, rest: Result<seq<ForwardSpec>, Error>)
    ensures After(x, After(y, rest)) == After(x + y, rest)
  {
    if rest.Ok? {
      assert x + (y + rest.value) == x + y + rest.value;
    }
  }

  ghost function LocalNames(specs: seq<ForwardSpec>): set<string> {
    set i | 0 <= i < |specs| :: LocalName(specs[i])
  }

  lemma NameTakenIffListenerTaken(specs: seq<ForwardSpec>, i: nat)
    requires i < |specs|
    ensures LocalName(specs[i]) in LocalNames(specs[..i]) <==>
      exists j :: 0 <= j < i && SameListener(specs[j], specs[i])
    ensures LocalNames(specs[..i + 1]) == LocalNames(specs[..i]) + {LocalName(specs[i])}
  {
    hide LocalName, SameListener;
    forall j | 0 <= j < i
      ensures LocalName(specs[j]) == LocalName(specs[i]) <==> SameListener(specs[j], specs[i])
    {
      LocalNamesTellListenersApart(specs[j], specs[i]);
    }
    assert forall j :: 0 <= j < i ==> specs[..i][j] == specs[j];
    assert forall j :: 0 <= j < i + 1 ==> specs[..i + 1][j] == specs[j];
    if LocalName(specs[i]) in LocalNames(specs[..i]) {
      var j :| 0 <= j < |specs[..i]| && LocalName(specs[..i][j]) == LocalName(specs[i]);
      assert SameListener(specs[j], specs[i]);
    }
    if j :| 0 <= j < i && SameListener(specs[j], specs[i]) {
      assert LocalName(specs[..i][j]) == LocalName(specs[i]);
    }
    forall name | name in LocalNames(specs[..i + 1])
      ensures name in LocalNames(specs[..i]) + {LocalName(specs[i])}
    {
      var j :| 0 <= j < |specs[..i + 1]| && LocalName(specs[..i + 1][j]) == name;
      if j < i {
        assert LocalName(specs[..i][j]) == name;
      }
    }
    forall name | name in LocalNames(specs[..i]) + {LocalName(specs[i])}
      ensures name in LocalNames(specs[..i + 1])
    {
      if name == LocalName(specs[i]) {
        assert LocalName(specs[..i + 1][i]) == name;
      } else {
        var j :| 0 <= j < |specs[..i]| && LocalName(specs[..i][j]) == name;
        assert LocalName(specs[..i + 1][j]) == name;
      }
    }
  }

  /** Keeps the names seen so far and stops at the first one seen before. */
  method RejectRepeats(specs: seq<ForwardSpec>) returns (r: Result<seq<ForwardSpec>, Error>)
    ensures r == Checked(specs)
  {
    hide LocalName, SameListener;
    var locals: set<string> := {};
    for i := 0 to |specs|
      invariant locals == LocalNames(specs[..i])
      invariant FirstRepeat(specs, 0) == FirstRepeat(specs, i)
    {
      NameTakenIffListenerTaken(specs, i);
      if LocalName(specs[i]) in locals {
        return Err(Repeated(specs[i].listenNetwork, specs[i].listenAddress));
      }
      locals := locals + {LocalName(specs[i])};
    }
    r := Ok(specs);
  }

  lemma AfterNothing(rest: Result<seq<ForwardSpec>, Error>)
    ensures After([], rest) == rest
  {
    if rest.Ok? {
      assert [] + rest.value == rest.value;
    }
  }

  method ParsePortForwards(tcp: seq<string>, udp: seq<string>) returns (r: Result<seq<ForwardSpec>, Error>)
    ensures r == Forwards(tcp, udp)
  {
    hide Collected, Pieces, Checked;
    var t := AppendForwards(TCP, tcp, []);
    AfterNothing(Collected(TCP, Pieces(tcp)));
    if t.Err? {
      return t;
    }
    var specs := AppendForwards(UDP, udp, t.value);
    if specs.Err? {
      return specs;
    }
    r := RejectRepeats(specs.value);
  }

  // ----- names -----

  lemma NoSeparator(s: string, sep: char)
    requires AllDigits(s) && !IsDigit(sep)
    ensures sep !in s
  {
  }

  lemma OctetOfItoa(b: Byte)
    ensures IsOctet(Itoa(b)) && Value(Itoa(b)) == b
  {
    ValueOfItoa(b);
  }

  /** Reading an address inverts writing it. */
  lemma ParseAddrInvertsAddrName(a: IPv4)
    ensures ':' !in AddrName(a) && '-' !in AddrName(a) && ',' !in AddrName(a)
    ensures ParseAddr(AddrName(a)) == Some(a)
  {
    hide Itoa, Split, Value, IsOctet;
    OctetOfItoa(a.a);
    OctetOfItoa(a.b);
    OctetOfItoa(a.c);
    OctetOfItoa(a.d);
    SplitWhole(Itoa(a.d), '.');
    SplitHead(Itoa(a.c), Itoa(a.d), '.');
    SplitHead(Itoa(a.b), Itoa(a.c) + ['.'] + Itoa(a.d), '.');
    SplitHead(Itoa(a.a), Itoa(a.b) + ['.'] + (Itoa(a.c) + ['.'] + Itoa(a.d)), '.');
  }

  lemma OctetIff(s: string)
    ensures IsOctet(s) <==> exists b: Byte :: s == Itoa(b)
    ensures IsOctet(s) ==> s == Itoa(Value(s))
  {
    if IsOctet(s) {
      ItoaOfValue(s);
      var b: Byte := Value(s);
      assert s == Itoa(b);
    }
    if b: Byte :| s == Itoa(b) {
      OctetOfItoa(b);
    }
  }

  /** An address is read exactly from its canonical form. */
  lemma AddrReadIffCanonical(s: string, a: IPv4)
    requires ':' !in s
    ensures ParseAddr(s) == Some(a) <==> s == AddrName(a)
  {
    ParseAddrInvertsAddrName(a);
    if ParseAddr(s) == Some(a) {
      var f := Split(s, '.');
      SplitSpelt(s, '.');
      hide Split, Itoa, Value, IsOctet;
      OctetIff(f[0]);
      OctetIff(f[1]);
      OctetIff(f[2]);
      OctetIff(f[3]);
    }
  }

  /** The names compared are equal exactly for equal listeners. */
  lemma LocalNamesTellListenersApart(s: ForwardSpec, t: ForwardSpec)
    ensures LocalName(s) == LocalName(t) <==> SameListener(s, t)
  {
    if LocalName(s) == LocalName(t) {
      var x := LocalParts(s);
      var y := LocalParts(t);
      assert x == y;
      ParseAddrInvertsAddrName(s.listenAddress.addr);
      ParseAddrInvertsAddrName(t.listenAddress.addr);
      ValueOfItoa(s.listenAddress.port);
      ValueOfItoa(t.listenAddress.port);
      assert x[0] == y[0] && x[1] == y[1] && x[2] == y[2];
      assert NetworkName(s.listenNetwork)[0] == NetworkName(t.listenNetwork)[0];
    }
  }

  lemma LocalParts(s: ForwardSpec) returns (parts: seq<string>)
    ensures parts == [NetworkName(s.listenNetwork), AddrName(s.listenAddress.addr), Itoa(s.listenAddress.port)]
    ensures parts == Split(LocalName(s), ':')
  {
    parts := [NetworkName(s.listenNetwork), AddrName(s.listenAddress.addr), Itoa(s.listenAddress.port)];
    ParseAddrInvertsAddrName(s.listenAddress.addr);
    SplitWhole(parts[2], ':');
    SplitHead(parts[1], parts[2], ':');
    SplitHead(parts[0], parts[1] + [':'] + parts[2], ':');
  }

  // ----- the forms of a specification -----

  datatype Ports = One(port: Port) | Run(first: Port, last: Port)

  /** The ways of writing a specification with IPv4 addresses. */
  datatype Form =
    | Same(ports: Ports)
    | Pair(locals: Ports, remotes: Ports)
    | Bound(addr: IPv4, ports: Ports)
    | Full(addr: IPv4, locals: Ports, remotes: Ports)

  predicate Proper(p: Ports) {
    p.Run? ==> p.first <= p.last
  }

  function PortList(p: Ports): (ports: seq<Port>)
    requires Proper(p)
    ensures match p case One(port) => ports == [port] case Run(first, last) => Counts(ports, first, last - first + 1)
  {
    match p
    case One(port) => [port]
    case Run(first, last) => PortsFrom(first, last - first + 1)
  }

  function Locals(f: Form): Ports {
    if f.Same? || f.Bound? then f.ports else f.locals
  }

  function Remotes(f: Form): Ports {
    if f.Same? || f.Bound? then f.ports else f.remotes
  }

  function LocalAddr(f: Form): IPv4 {
    if f.Bound? || f.Full? then f.addr else LOOPBACK
  }

  predicate WellFormed(f: Form) {
    && Proper(Locals(f)) && Proper(Remotes(f))
    && (Locals(f).One? <==> Remotes(f).One?)
    && |PortList(Locals(f))| == |PortList(Remotes(f))|
  }

  function Meaning(f: Form): seq<Mapping>
    requires WellFormed(f)
  {
    Aligned(LocalAddr(f), PortList(Locals(f)), PortList(Remotes(f)))
  }

  /** `text` spells the port, or the two ends of the run around a dash. */
  ghost predicate SpellsPorts(text: string, p: Ports) {
    match p
    case One(port) => Spells(text, port)
    case Run(first, last) => exists x, y :: Spells(x, first) && Spells(y, last) && text == x + ['-'] + y
  }

  ghost predicate SpellsForm(text: string, f: Form) {
    match f
    case Same(p) => SpellsPorts(text, p)
    case Pair(l, r) => exists x, y :: SpellsPorts(x, l) && SpellsPorts(y, r) && text == x + [':'] + y
    case Bound(a, p) => exists y :: SpellsPorts(y, p) && text == AddrName(a) + [':'] + y
    case Full(a, l, r) =>
      exists x, y :: SpellsPorts(x, l) && SpellsPorts(y, r) && text == AddrName(a) + [':'] + (x + [':'] + y)
  }

  lemma SpeltClean(text: string, n: nat)
    requires Spells(text, n)
    ensures forall i :: 0 <= i < |text| ==> IsSpace(text[i]) || IsDigit(text[i])
  {
    var lead, word, trail :| SpellsBy(text, lead, word, trail, n);
    hide SpellsBy, Value;
    assert AllSpaces(lead) && AllDigits(word) && AllSpaces(trail) && text == lead + word + trail;
  }

  lemma PortsClean(text: string, p: Ports)
    requires SpellsPorts(text, p)
    ensures ':' !in text && '.' !in text && ',' !in text && ('-' in text <==> p.Run?)
  {
    hide Spells;
    if p.Run? {
      var x, y :| Spells(x, p.first) && Spells(y, p.last) && text == x + ['-'] + y;
      SpeltClean(x, p.first);
      SpeltClean(y, p.last);
      assert text[|x|] == '-';
    } else {
      SpeltClean(text, p.port);
    }
  }

  lemma RunRead(text: string, p: Ports)
    requires p.Run? && Proper(p) && SpellsPorts(text, p)
    ensures PortRange(text) == Ok(PortList(p))
  {
    hide Spells, ParsePort, Split;
    var x, y :| Spells(x, p.first) && Spells(y, p.last) && text == x + ['-'] + y;
    SpeltClean(x, p.first);
    SpeltClean(y, p.last);
    SplitHead(x, y, '-');
    SplitWhole(y, '-');
    PortReadIffSpelt(x, p.first);
    PortReadIffSpelt(y, p.last);
  }

  lemma RangeSpelt(text: string) returns (p: Ports)
    requires PortRange(text).Ok?
    ensures p.Run? && Proper(p) && SpellsPorts(text, p) && PortRange(text).value == PortList(p)
  {
    var parts := Split(text, '-');
    SplitSpelt(text, '-');
    hide Split, Spells, ParsePort;
    p := Run(ParsePort(parts[0]).value, ParsePort(parts[1]).value);
    PortReadIffSpelt(parts[0], p.first);
    PortReadIffSpelt(parts[1], p.last);
  }

  /** The parts of a spelt form. */
  lemma SpeltShape(text: string, f: Form) returns (l: string, r: string)
    requires SpellsForm(text, f)
    ensures ShapeOf(text) == Ok(Shape(LocalAddr(f), l, r))
    ensures SpellsPorts(l, Locals(f)) && SpellsPorts(r, Remotes(f))
  {
    hide SpellsPorts, Split, AddrName, ParseAddr;
    match f {
      case Same(p) =>
        l, r := text, text;
        PortsClean(text, p);
        SplitWhole(text, ':');
      case Pair(ls, rs) =>
        l, r :| SpellsPorts(l, ls) && SpellsPorts(r, rs) && text == l + [':'] + r;
        PortsClean(l, ls);
        PortsClean(r, rs);
        SplitHead(l, r, ':');
        SplitWhole(r, ':');
        NotAnAddress(l);
      case Bound(a, p) =>
        r :| SpellsPorts(r, p) && text == AddrName(a) + [':'] + r;
        l := r;
        PortsClean(r, p);
        ParseAddrInvertsAddrName(a);
        SplitHead(AddrName(a), r, ':');
        SplitWhole(r, ':');
      case Full(a, ls, rs) =>
        l, r :| SpellsPorts(l, ls) && SpellsPorts(r, rs) && text == AddrName(a) + [':'] + (l + [':'] + r);
        PortsClean(l, ls);
        PortsClean(r, rs);
        ParseAddrInvertsAddrName(a);
        SplitHead(AddrName(a), l + [':'] + r, ':');
        SplitHead(l, r, ':');
        SplitWhole(r, ':');
    }
  }

  lemma NotAnAddress(text: string)
    requires ':' !in text && '.' !in text
    ensures ParseAddr(text).None?
  {
    SplitWhole(text, '.');
  }

  lemma SpeltIsRead(text: string, f: Form)
    requires WellFormed(f) && SpellsForm(text, f)
    ensures SrcDest(text) == Ok(Meaning(f))
  {
    hide SpellsForm, SpellsPorts, ShapeOf, ParsePort, PortRange, PortList;
    var l, r := SpeltShape(text, f);
    PortsClean(l, Locals(f));
    if Locals(f).One? {
      OneRead(l, Locals(f).port);
      OneRead(r, Remotes(f).port);
      OneListed(Locals(f));
      OneListed(Remotes(f));
    } else {
      RunRead(l, Locals(f));
      RunRead(r, Remotes(f));
    }
  }

  lemma OneListed(p: Ports)
    requires p.One?
    ensures PortList(p) == [p.port]
  {
  }

  lemma OneRead(text: string, p: Port)
    requires SpellsPorts(text, One(p))
    ensures ParsePort(text) == Ok(p)
  {
    PortReadIffSpelt(text, p);
  }

  /** The ports of an accepted specification are spelt alike on both sides. */
  lemma ReadPortsSpelt(text: string) returns (l: Ports, r: Ports)
    requires SrcDest(text).Ok?
    ensures var shape := ShapeOf(text).value;
      && Proper(l) && Proper(r) && (l.One? <==> r.One?) && |PortList(l)| == |PortList(r)|
      && SpellsPorts(shape.localPorts, l) && SpellsPorts(shape.remotePorts, r)
      && (shape.localPorts == shape.remotePorts ==> l == r)
      && SrcDest(text).value == Aligned(shape.local, PortList(l), PortList(r))
  {
    var shape := ShapeOf(text).value;
    hide ShapeOf, Spells, ParsePort, PortRange;
    if '-' !in shape.localPorts {
      l, r := One(ParsePort(shape.localPorts).value), One(ParsePort(shape.remotePorts).value);
      PortReadIffSpelt(shape.localPorts, l.port);
      PortReadIffSpelt(shape.remotePorts, r.port);
    } else {
      hide SpellsPorts, PortList;
      l := RangeSpelt(shape.localPorts);
      r := l;
      if shape.localPorts != shape.remotePorts {
        r := RangeSpelt(shape.remotePorts);
      }
    }
  }

  /** The form of a text cut into parts. */
  lemma ShapeSpelt(text: string, l: Ports, r: Ports) returns (f: Form)
    requires ShapeOf(text).Ok?
    requires var shape := ShapeOf(text).value;
      && SpellsPorts(shape.localPorts, l) && SpellsPorts(shape.remotePorts, r)
      && (shape.localPorts == shape.remotePorts ==> l == r)
    ensures SpellsForm(text, f)
    ensures LocalAddr(f) == ShapeOf(text).value.local && Locals(f) == l && Remotes(f) == r
  {
    var parts := Split(text, ':');
    SplitSpelt(text, ':');
    hide Split, SpellsPorts, AddrName, ParseAddr;
    var addr := ParseAddr(parts[0]);
    if addr.Some? {
      AddrReadIffCanonical(parts[0], addr.value);
    }
    if |parts| == 1 {
      f := Same(l);
    } else if |parts| == 2 && addr.None? {
      f := Pair(l, r);
    } else if |parts| == 2 {
      f := Bound(addr.value, l);
    } else {
      f := Full(addr.value, l, r);
    }
  }

  lemma ReadIsSpelt(text: string) returns (f: Form)
    requires SrcDest(text).Ok?
    ensures WellFormed(f) && SpellsForm(text, f) && SrcDest(text).value == Meaning(f)
  {
    var l, r := ReadPortsSpelt(text);
    hide ShapeOf, SpellsForm, SpellsPorts, PortList, ParsePort, PortRange;
    f := ShapeSpelt(text, l, r);
  }

  /** A text is accepted, with these mappings, exactly if it spells some
      well-formed form that means them. */
  lemma AcceptedIffSpelt(text: string, ms: seq<Mapping>)
    ensures SrcDest(text) == Ok(ms) <==> exists f :: SpellsForm(text, f) && WellFormed(f) && ms == Meaning(f)
  {
    hide SpellsForm, Meaning, WellFormed;
    if SrcDest(text) == Ok(ms) {
      var f := ReadIsSpelt(text);
    }
    if f :| SpellsForm(text, f) && WellFormed(f) && ms == Meaning(f) {
      SpeltIsRead(text, f);
    }
  }

  /** Mappings in step: equally long runs of ports, locally at one address and
      remotely at 127.0.0.1. */
  ghost predicate InStep(ms: seq<Mapping>, a: IPv4, l: Port, r: Port) {
    && ms != [] && l + |ms| <= 0x1_0000 && r + |ms| <= 0x1_0000
    && forall i :: 0 <= i < |ms| ==>
         && ms[i].local == AddrPort(a, l + i)
         && ms[i].remote == AddrPort(IPv4(127, 0, 0, 1), r + i)
  }

  function First(p: Ports): Port {
    match p case One(port) => port case Run(first, _) => first
  }

  /** What a form means, mapping by mapping. */
  lemma MeaningInStep(f: Form)
    requires WellFormed(f)
    ensures InStep(Meaning(f), LocalAddr(f), First(Locals(f)), First(Remotes(f)))
    ensures |Meaning(f)| == match Locals(f) case One(_) => 1 case Run(first, last) => last - first + 1
  {
  }

  lemma SpecYieldsAlignedRuns(text: string)
    requires SrcDest(text).Ok?
    ensures exists a: IPv4, l: Port, r: Port :: InStep(SrcDest(text).value, a, l, r)
  {
    hide SrcDest, Meaning, WellFormed, SpellsForm, InStep;
    var f := ReadIsSpelt(text);
    MeaningInStep(f);
  }

  // ----- what a successful parse yields -----

  ghost predicate AllParse(pieces: seq<string>) {
    forall i :: 0 <= i < |pieces| ==> SrcDest(pieces[i]).Ok?
  }

  /** The mappings of pieces that all parse, one after another. */
  ghost function MappingsOf(pieces: seq<string>): seq<Mapping>
    requires AllParse(pieces)
  {
    if pieces == [] then [] else SrcDest(pieces[0]).value + MappingsOf(pieces[1..])
  }

  lemma {:induction false} CollectedIffAllParse(network: Network, pieces: seq<string>)
    ensures Collected(network, pieces).Ok? <==> AllParse(pieces)
    ensures AllParse(pieces) ==> AreForwards(Collected(network, pieces).value, network, MappingsOf(pieces))
  {
    hide SrcDest, Tagged;
    if pieces != [] {
      CollectedIffAllParse(network, pieces[1..]);
      if AllParse(pieces[1..]) && SrcDest(pieces[0]).Ok? {
        assert AllParse(pieces);
      }
    }
  }

  /** A list that does not parse is refused for its first piece that does not. */
  lemma {:induction false} FirstBadPiece(network: Network, pieces: seq<string>) returns (k: nat)
    requires Collected(network, pieces).Err?
    ensures k < |pieces| && AllParse(pieces[..k]) && SrcDest(pieces[k]).Err?
    ensures Collected(network, pieces).error == BadForward(network, pieces[k], SrcDest(pieces[k]).error)
  {
    hide SrcDest;
    if SrcDest(pieces[0]).Err? {
      k := 0;
    } else {
      k := FirstBadPiece(network, pieces[1..]);
      var upTo := pieces[..k + 1];
      assert pieces[1..][..k] == upTo[1..];
      forall i | 0 <= i < |upTo| ensures SrcDest(upTo[i]).Ok? {
        assert i > 0 ==> upTo[i] == pieces[1..][..k][i - 1];
      }
      k := k + 1;
    }
  }

  ghost predicate ListenersDistinct(specs: seq<ForwardSpec>) {
    forall i, j :: 0 <= i < j < |specs| ==> !SameListener(specs[i], specs[j])
  }

  ghost predicate LocalsDistinct(ms: seq<Mapping>) {
    forall i, j :: 0 <= i < j < |ms| ==> ms[i].local != ms[j].local
  }

  lemma {:induction false} NoRepeatIffDistinct(specs: seq<ForwardSpec>, from: nat)
    requires from <= |specs|
    ensures FirstRepeat(specs, from).None? <==>
      forall i, j :: 0 <= i < j < |specs| && from <= j ==> !SameListener(specs[i], specs[j])
    decreases |specs| - from
  {
    if from < |specs| {
      NoRepeatIffDistinct(specs, from + 1);
    }
  }

  /** A TCP and a UDP forward never clash. */
  lemma ListenersIffLocals(t: seq<ForwardSpec>, u: seq<ForwardSpec>, tcp: seq<Mapping>, udp: seq<Mapping>)
    requires AreForwards(t, TCP, tcp) && AreForwards(u, UDP, udp)
    ensures ListenersDistinct(t + u) <==> LocalsDistinct(tcp) && LocalsDistinct(udp)
  {
    var all := t + u;
    if ListenersDistinct(all) {
      forall i, j | 0 <= i < j < |tcp| ensures tcp[i].local != tcp[j].local {
        assert !SameListener(all[i], all[j]);
      }
      forall i, j | 0 <= i < j < |udp| ensures udp[i].local != udp[j].local {
        assert !SameListener(all[|t| + i], all[|t| + j]);
      }
    }
    if LocalsDistinct(tcp) && LocalsDistinct(udp) {
      forall i, j | 0 <= i < j < |all| ensures !SameListener(all[i], all[j]) {
        assert i < |t| ==> IsForward(all[i], TCP, tcp[i]);
        assert j < |t| ==> IsForward(all[j], TCP, tcp[j]);
        assert i >= |t| ==> IsForward(all[i], UDP, udp[i - |t|]);
        assert j >= |t| ==> IsForward(all[j], UDP, udp[j - |t|]);
      }
    }
  }

  /** Forward by forward: first those of the TCP mappings, which listen and dial
      TCP, then those of the UDP mappings, which listen and dial UDP. */
  ghost predicate Carries(specs: seq<ForwardSpec>, tcp: seq<Mapping>, udp: seq<Mapping>) {
    && |specs| == |tcp| + |udp|
    && (forall i :: 0 <= i < |tcp| ==>
          && specs[i].listenNetwork == TCP && specs[i].dialNetwork == TCP
          && specs[i].listenAddress == tcp[i].local && specs[i].dialAddress == tcp[i].remote)
    && (forall i :: 0 <= i < |udp| ==>
          && specs[|tcp| + i].listenNetwork == UDP && specs[|tcp| + i].dialNetwork == UDP
          && specs[|tcp| + i].listenAddress == udp[i].local && specs[|tcp| + i].dialAddress == udp[i].remote)
  }

  /** Lists parse exactly when every piece does and no two pieces of one network
      map the same local address and port, and then yield the forwards of all
      pieces in order. */
  lemma ForwardsIffDistinct(tcp: seq<string>, udp: seq<string>)
    ensures var (t, u) := (Pieces(tcp), Pieces(udp));
      var r := Forwards(tcp, udp);
      && (r.Ok? <==> AllParse(t) && AllParse(u) && LocalsDistinct(MappingsOf(t)) && LocalsDistinct(MappingsOf(u)))
      && (r.Ok? ==> Carries(r.value, MappingsOf(t), MappingsOf(u)))
      && (r.Err? && AllParse(t) && AllParse(u) ==> r.error.Repeated?)
  {
    hide Pieces, SrcDest, MappingsOf, LocalsDistinct;
    var (t, u) := (Pieces(tcp), Pieces(udp));
    CollectedIffAllParse(TCP, t);
    CollectedIffAllParse(UDP, u);
    if AllParse(t) && AllParse(u) {
      hide Collected, AllParse;
      var (x, y) := (Collected(TCP, t).value, Collected(UDP, u).value);
      ListenersIffLocals(x, y, MappingsOf(t), MappingsOf(u));
      NoRepeatIffDistinct(x + y, 0);
      hide FirstRepeat;
    }
  }

  // ----- rendering -----

  function PortText(p: Ports): string {
    match p
    case One(port) => Itoa(port)
    case Run(first, last) => Itoa(first) + ['-'] + Itoa(last)
  }

  function Render(f: Form): string {
    match f
    case Same(p) => PortText(p)
    case Pair(l, r) => PortText(l) + [':'] + PortText(r)
    case Bound(a, p) => AddrName(a) + [':'] + PortText(p)
    case Full(a, l, r) => AddrName(a) + [':'] + (PortText(l) + [':'] + PortText(r))
  }

  lemma NumberSpelt(n: nat)
    ensures Spells(Itoa(n), n)
  {
    ValueOfItoa(n);
    assert SpellsBy(Itoa(n), "", Itoa(n), "", n);
  }

  lemma PortTextSpelt(p: Ports)
    ensures SpellsPorts(PortText(p), p)
  {
    hide Spells;
    match p
    case One(port) => NumberSpelt(port);
    case Run(first, last) =>
      NumberSpelt(first);
      NumberSpelt(last);
  }

  lemma RenderSpells(f: Form)
    ensures SpellsForm(Render(f), f) && ',' !in Render(f)
  {
    hide SpellsPorts, PortText, AddrName;
    PortTextSpelt(Locals(f));
    PortTextSpelt(Remotes(f));
    PortsClean(PortText(Locals(f)), Locals(f));
    PortsClean(PortText(Remotes(f)), Remotes(f));
    if f.Bound? || f.Full? {
      ParseAddrInvertsAddrName(f.addr);
    }
  }

  /** Parsing a rendered specification gives its meaning. */
  lemma ParseInvertsRender(f: Form)
    requires WellFormed(f)
    ensures SrcDest(Render(f)) == Ok(Meaning(f))
    ensures ',' !in Render(f)
  {
    hide SpellsForm, Render, SrcDest, Meaning, WellFormed;
    RenderSpells(f);
    SpeltIsRead(Render(f), f);
  }

  /** Whatever parses means the same as a well-formed rendered specification. */
  lemma EverySpecHasForm(text: string) returns (f: Form)
    requires SrcDest(text).Ok?
    ensures WellFormed(f) && SrcDest(text) == Ok(Meaning(f)) == SrcDest(Render(f))
  {
    hide SpellsForm, Render, SrcDest, Meaning, WellFormed;
    f := ReadIsSpelt(text);
    ParseInvertsRender(f);
  }

  // ----- rendered lists -----

  ghost predicate AllWellFormed(forms: seq<Form>) {
    forall i :: 0 <= i < |forms| ==> WellFormed(forms[i])
  }

  function RenderAll(forms: seq<Form>): (texts: seq<string>)
    ensures |texts| == |forms| && forall i :: 0 <= i < |forms| ==> texts[i] == Render(forms[i])
  {
    seq(|forms|, i requires 0 <= i < |forms| => Render(forms[i]))
  }

  /** A comma-separated entry for each list of forms. */
  function RenderEntries(lists: seq<seq<Form>>): (entries: seq<string>)
    requires forall i :: 0 <= i < |lists| ==> lists[i] != []
  {
    if lists == [] then [] else [Join(RenderAll(lists[0]), ',')] + RenderEntries(lists[1..])
  }

  function Flatten(lists: seq<seq<Form>>): seq<Form> {
    if lists == [] then [] else lists[0] + Flatten(lists[1..])
  }

  ghost function Meanings(forms: seq<Form>): seq<Mapping>
    requires AllWellFormed(forms)
  {
    if forms == [] then [] else Meaning(forms[0]) + Meanings(forms[1..])
  }

  lemma EntrySplits(forms: seq<Form>)
    requires forms != [] && AllWellFormed(forms)
    ensures Split(Join(RenderAll(forms), ','), ',') == RenderAll(forms)
  {
    forall i | 0 <= i < |forms| ensures ',' !in RenderAll(forms)[i] {
      ParseInvertsRender(forms[i]);
    }
    SplitJoin(RenderAll(forms), ',');
  }

  lemma AllWellFormedParts(forms: seq<Form>, rest: seq<Form>)
    requires AllWellFormed(forms + rest)
    ensures AllWellFormed(forms) && AllWellFormed(rest)
  {
    hide WellFormed;
    assert forall i :: 0 <= i < |forms| ==> forms[i] == (forms + rest)[i];
    assert forall i :: 0 <= i < |rest| ==> rest[i] == (forms + rest)[|forms| + i];
  }

  lemma {:induction false} PiecesOfRendered(lists: seq<seq<Form>>)
    requires forall i :: 0 <= i < |lists| ==> lists[i] != []
    requires AllWellFormed(Flatten(lists))
    ensures Pieces(RenderEntries(lists)) == RenderAll(Flatten(lists))
  {
    hide AllWellFormed, Render, Split, Join;
    if lists != [] {
      var forms, rest := lists[0], Flatten(lists[1..]);
      AllWellFormedParts(forms, rest);
      PiecesOfRendered(lists[1..]);
      EntrySplits(forms);
      assert RenderAll(forms) + RenderAll(rest) == RenderAll(forms + rest);
      assert RenderEntries(lists)[1..] == RenderEntries(lists[1..]);
    }
  }

  lemma {:induction false} MappingsOfRendered(forms: seq<Form>)
    requires AllWellFormed(forms)
    ensures AllParse(RenderAll(forms)) && MappingsOf(RenderAll(forms)) == Meanings(forms)
  {
    hide SrcDest, Render, Meaning, WellFormed;
    forall i | 0 <= i < |forms| ensures SrcDest(RenderAll(forms)[i]) == Ok(Meaning(forms[i])) {
      ParseInvertsRender(forms[i]);
    }
    if forms != [] {
      MappingsOfRendered(forms[1..]);
      assert RenderAll(forms)[1..] == RenderAll(forms[1..]);
    }
  }

  /** Parsing rendered lists returns the forwards of what all forms mean, in order,
      or reports a repetition exactly if two of one network map the same local
      address and port. */
  lemma ParseInvertsRenderedLists(tcp: seq<seq<Form>>, udp: seq<seq<Form>>)
    requires forall i :: 0 <= i < |tcp| ==> tcp[i] != []
    requires forall i :: 0 <= i < |udp| ==> udp[i] != []
    requires AllWellFormed(Flatten(tcp)) && AllWellFormed(Flatten(udp))
    ensures var (t, u) := (Meanings(Flatten(tcp)), Meanings(Flatten(udp)));
      var r := Forwards(RenderEntries(tcp), RenderEntries(udp));
      if LocalsDistinct(t) && LocalsDistinct(u) then r.Ok? && Carries(r.value, t, u) else r.Err? && r.error.Repeated?
  {
    PiecesOfRendered(tcp);
    PiecesOfRendered(udp);
    MappingsOfRendered(Flatten(tcp));
    MappingsOfRendered(Flatten(udp));
    ForwardsIffDistinct(RenderEntries(tcp), RenderEntries(udp));
    hide Forwards, RenderEntries, Flatten, LocalsDistinct, Carries, AllWellFormed, AllParse;
  }
}
