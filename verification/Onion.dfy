/** Building an onion request and peeling it, hop by hop.  Encryption, the printing and parsing of JSON, and
    the hex forms of keys are functions that are given; all that is asked of them is that each undoes the
    other. */
module Onion {
  import opened MonitorTypes

  type Byte = b: int | 0 <= b < 0x100
  type Bytes = seq<Byte>

  /** An Ed25519 key names a node; an X25519 key is what is encrypted to or with. */
  type EdKey = nat
  type XKey = nat

  datatype EncType = AesGcm | XChaCha20

  datatype Value = Str(text: string) | Flag(on: bool) | Num(n: int) | Nested
  type Json = map<string, Value>

  /** The given functions: the public key of an ephemeral secret; encryption of data by its secret to a node's
      key, and decryption at the node by its public key; JSON; and hex. */
  datatype Codec = Codec(
    pub: nat -> XKey,
    encrypt: (EncType, Bytes, XKey, nat) -> Bytes,
    decrypt: (EncType, Bytes, XKey, XKey) -> Option<Bytes>,
    print_: Json -> Bytes,
    parse: Bytes -> Option<Json>,
    hex: nat -> string,
    unhex: string -> Option<nat>)

  ghost predicate Sound(c: Codec) {
    && (forall t: EncType, data: Bytes, node: XKey, eph: nat {:trigger c.encrypt(t, data, node, eph)} :: c.decrypt(t, c.encrypt(t, data, node, eph), node, c.pub(eph)) == Some(data))
    && (forall j: Json :: c.parse(c.print_(j)) == Some(j))
    && (forall k: nat :: c.unhex(c.hex(k)) == Some(k))
  }

  // ---- Sizes

  const WORD: int := 0x1_0000_0000

  function Low(n: nat): Byte {
    n % 0x100
  }

  /** A size as four bytes, the lowest first; a size that does not fit loses its upper part. */
  function EncodeSize(n: nat): (r: Bytes)
    ensures |r| == 4
  {
    var s := n % WORD;
    var s1 := s / 0x100;
    var s2 := s1 / 0x100;
    [Low(s), Low(s1), Low(s2), Low(s2 / 0x100)]
  }

  function DecodeSize(b: Bytes): nat
    requires |b| == 4
  {
    (b[0] as int) + 0x100 * (b[1] as int) + 0x1_0000 * (b[2] as int) + 0x100_0000 * (b[3] as int)
  }

  /** A size is four bytes, the lowest first. */
  lemma SizeIsLittleEndian(n: nat)
    requires n < WORD
    ensures var b := EncodeSize(n);
      && b[0] as int == n % 256 && b[1] as int == n / 256 % 256 && b[2] as int == n / 65_536 % 256 && b[3] as int == n / 16_777_216
  {
    assert n / 256 / 256 == n / 65_536 && n / 256 / 256 / 256 == n / 16_777_216;
  }

  lemma SizeRoundTrip(n: nat)
    ensures DecodeSize(EncodeSize(n)) == n % WORD
  {
  }

  // ---- A payload of a size, a ciphertext and a JSON object

  function Frame(blob: Bytes, rest: Bytes): Bytes {
    EncodeSize(|blob|) + blob + rest
  }

  function ParseCombined(c: Codec, payload: Bytes): Option<(Bytes, Json)> {
    if |payload| < 4 then None
    else
      var n := DecodeSize(payload[..4]);
      var left := payload[4..];
      if |left| < n then None
      else
        var j := c.parse(left[n..]);
        if j.None? then None else Some((left[..n], j.value))
  }

  lemma FrameParts(blob: Bytes, rest: Bytes)
    ensures var p := Frame(blob, rest);
      |p| >= 4 && DecodeSize(p[..4]) == |blob| % WORD && p[4..] == blob + rest
  {
    var p := Frame(blob, rest);
    SizeRoundTrip(|blob|);
    assert p[..4] == EncodeSize(|blob|);
    assert p[4..] == blob + rest;
  }

  /** A framed blob is parsed back exactly if its size fits in four bytes. */
  lemma FrameRoundTrip(c: Codec, blob: Bytes, rest: Bytes, j: Json)
    requires c.parse(rest) == Some(j)
    ensures ParseCombined(c, Frame(blob, rest)) == Some((blob, j)) <==> |blob| < WORD
  {
    FrameParts(blob, rest);
    var n := |blob| % WORD;
    if |blob| < WORD {
      assert (blob + rest)[..n] == blob && (blob + rest)[n..] == rest;
    } else {
      assert n < |blob|;
    }
  }

  // ---- Building

  /** A hop: its node's keys, and the ephemeral secret and encryption drawn for it. */
  datatype Hop = Hop(ed: EdKey, x: XKey, eph: nat, et: EncType)

  function EncName(t: EncType): string {
    match t
    case AesGcm => "aes-gcm"
    case XChaCha20 => "xchacha20"
  }

  /** What a hop is told of the next. */
  function Routing(c: Codec, next: Hop): Json {
    map["destination" := Str(c.hex(next.ed)), "ephemeral_key" := Str(c.hex(c.pub(next.eph))), "enc_type" := Str(EncName(next.et))]
  }

  /** What the first hop is sent along with its blob. */
  function Opening(c: Codec, first: Hop): Json {
    map["ephemeral_key" := Str(c.hex(c.pub(first.eph))), "enc_type" := Str(EncName(first.et))]
  }

  function Plain(c: Codec, hops: seq<Hop>, payload: Bytes, control: Bytes): Bytes
    requires hops != []
    decreases |hops|, 0
  {
    if |hops| == 1 then Frame(payload, control)
    else Frame(Layer(c, hops[1..], payload, control), c.print_(Routing(c, hops[1])))
  }

  /** What the first of the hops decrypts. */
  function Layer(c: Codec, hops: seq<Hop>, payload: Bytes, control: Bytes): Bytes
    requires hops != []
    decreases |hops|, 1
  {
    c.encrypt(hops[0].et, Plain(c, hops, payload, control), hops[0].x, hops[0].eph)
  }

  /** Builds the request from the last hop to the first. */
  method Build(c: Codec, hops: seq<Hop>, payload: Bytes, control: Bytes) returns (blob: Bytes)
    requires hops != []
    ensures blob == Frame(Layer(c, hops, payload, control), c.print_(Opening(c, hops[0])))
  {
    var i := |hops| - 1;
    blob := EncodeSize(|payload|) + payload + control;
    blob := c.encrypt(hops[i].et, blob, hops[i].x, hops[i].eph);
    while i > 0
      invariant 0 <= i < |hops| && blob == Layer(c, hops[i..], payload, control)
    {
      assert hops[i - 1..][1..] == hops[i..] && hops[i - 1..][1] == hops[i];
      blob := EncodeSize(|blob|) + blob + c.print_(Routing(c, hops[i]));
      i := i - 1;
      blob := c.encrypt(hops[i].et, blob, hops[i].x, hops[i].eph);
    }
    assert hops[0..] == hops;
    blob := EncodeSize(|blob|) + blob + c.print_(Opening(c, hops[0]));
  }

  // ---- Peeling

  datatype Parsed =
    | RelayToNode(ciphertext: Bytes, eph: XKey, et: EncType, next: EdKey)
    | RelayToServer(payload: Bytes, host: string, port: nat, protocol: string, target: string)
    | FinalDestination(body: Bytes, json: bool, base64: bool)
    | InvalidCiphertext
    | InvalidJson

  function ParseEncType(s: string): Option<EncType> {
    if s == "xchacha20" || s == "xchacha20-poly1305" then Some(XChaCha20)
    else if s == "aes-gcm" || s == "gcm" then Some(AesGcm)
    else None
  }

  function TextAt(j: Json, k: string): Option<string> {
    if k in j && j[k].Str? then Some(j[k].text) else None
  }

  /** A flag with a default; none if it is there and not a flag. */
  function FlagAt(j: Json, k: string, otherwise: bool): Option<bool> {
    if k !in j then Some(otherwise) else if j[k].Flag? then Some(j[k].on) else None
  }

  function ProcessInner(c: Codec, plaintext: Bytes): Parsed {
    var p := ParseCombined(c, plaintext);
    if p.None? then InvalidJson
    else
      var (ciphertext, j) := p.value;
      if "headers" in j then
        var json, b64 := FlagAt(j, "json", false), FlagAt(j, "base64", true);
        if json.None? || b64.None? then InvalidJson else FinalDestination(ciphertext, json.value, b64.value)
      else if "host" in j then ProcessProxy(plaintext, j)
      else
        var next, eph := TextAt(j, "destination"), TextAt(j, "ephemeral_key");
        if next.None? || eph.None? || c.unhex(next.value).None? || c.unhex(eph.value).None? then InvalidJson
        else
          var et := EncTypeAt(j);
          if et.None? then InvalidJson
          else RelayToNode(ciphertext, c.unhex(eph.value).value, et.value, c.unhex(next.value).value)
  }

  /** The whole of the plaintext goes to the server. */
  function ProcessProxy(plaintext: Bytes, j: Json): Parsed {
    var host, target := TextAt(j, "host"), TextAt(j, "target");
    if host.None? || target.None? then InvalidJson
    else if "port" in j && !j["port"].Num? then InvalidJson
    else if "protocol" in j && !j["protocol"].Str? then InvalidJson
    else RelayToServer(plaintext, host.value, if "port" in j then j["port"].n % 0x1_0000 else 443,
                       if "protocol" in j then j["protocol"].text else "https", target.value)
  }

  function EncTypeAt(j: Json): Option<EncType> {
    if "enc_type" !in j then Some(AesGcm)
    else if !j["enc_type"].Str? then None
    else ParseEncType(j["enc_type"].text)
  }

  /** What the node with key `x` makes of a ciphertext. */
  function Process(c: Codec, x: XKey, ciphertext: Bytes, eph: XKey, et: EncType): Parsed {
    var plain := c.decrypt(et, ciphertext, x, eph);
    if plain.None? then InvalidCiphertext else ProcessInner(c, plain.value)
  }

  /** Every part of every layer fits its size field. */
  ghost predicate Fits(c: Codec, hops: seq<Hop>, payload: Bytes, control: Bytes)
    requires hops != []
    decreases |hops|
  {
    if |hops| == 1 then |payload| < WORD
    else |Layer(c, hops[1..], payload, control)| < WORD && Fits(c, hops[1..], payload, control)
  }

  lemma RoutingIsRead(c: Codec, next: Hop, blob: Bytes)
    requires Sound(c) && |blob| < WORD
    ensures ProcessInner(c, Frame(blob, c.print_(Routing(c, next)))) == RelayToNode(blob, c.pub(next.eph), next.et, next.ed)
  {
    FrameRoundTrip(c, blob, c.print_(Routing(c, next)), Routing(c, next));
  }

  /** A hop that is not the last finds the next one's layer, its key and encryption, and where to send it. */
  lemma PeelOne(c: Codec, hops: seq<Hop>, payload: Bytes, control: Bytes)
    requires Sound(c) && |hops| > 1 && Fits(c, hops, payload, control)
    ensures Process(c, hops[0].x, Layer(c, hops, payload, control), c.pub(hops[0].eph), hops[0].et)
      == RelayToNode(Layer(c, hops[1..], payload, control), c.pub(hops[1].eph), hops[1].et, hops[1].ed)
  {
    RoutingIsRead(c, hops[1], Layer(c, hops[1..], payload, control));
  }

  /** The last hop finds what was meant for it. */
  lemma PeelLast(c: Codec, hop: Hop, payload: Bytes, control: Bytes)
    requires Sound(c)
    ensures Process(c, hop.x, Layer(c, [hop], payload, control), c.pub(hop.eph), hop.et) == ProcessInner(c, Frame(payload, control))
  {
  }

  // ---- The whole way

  /** A request on its way: to which node, with what. */
  datatype Packet = Packet(to: EdKey, ciphertext: Bytes, eph: XKey, et: EncType)

  /** The nodes that a packet visits, each of which knows its own key, for at most `n` nodes; and what the
      last of them makes of it. */
  function Follow(c: Codec, xOf: EdKey -> XKey, p: Packet, n: nat): (seq<Packet>, Parsed)
    requires n > 0
    decreases n
  {
    var r := Process(c, xOf(p.to), p.ciphertext, p.eph, p.et);
    if r.RelayToNode? && n > 1 then
      var (rest, last) := Follow(c, xOf, Packet(r.next, r.ciphertext, r.eph, r.et), n - 1);
      ([p] + rest, last)
    else ([p], r)
  }

  lemma FollowOn(c: Codec, xOf: EdKey -> XKey, p: Packet, n: nat, next: Packet)
    requires n > 1 && Process(c, xOf(p.to), p.ciphertext, p.eph, p.et) == RelayToNode(next.ciphertext, next.eph, next.et, next.to)
    ensures var (rest, last) := Follow(c, xOf, next, n - 1); Follow(c, xOf, p, n) == ([p] + rest, last)
  {
  }

  function PacketFor(c: Codec, hops: seq<Hop>, payload: Bytes, control: Bytes): Packet
    requires hops != []
  {
    Packet(hops[0].ed, Layer(c, hops, payload, control), c.pub(hops[0].eph), hops[0].et)
  }

  /** The packets that the hops should see. */
  function Packets(c: Codec, hops: seq<Hop>, payload: Bytes, control: Bytes): seq<Packet>
    requires hops != []
    decreases |hops|
  {
    [PacketFor(c, hops, payload, control)] + if |hops| == 1 then [] else Packets(c, hops[1..], payload, control)
  }

  /** A request visits exactly the hops it was built for, in order, each with its own key and encryption, and
      at the last of them is what was put in: for any number of hops. */
  lemma {:induction false} PeelAll(c: Codec, xOf: EdKey -> XKey, hops: seq<Hop>, payload: Bytes, control: Bytes)
    requires Sound(c) && hops != [] && Fits(c, hops, payload, control)
    requires forall i :: 0 <= i < |hops| ==> xOf(hops[i].ed) == hops[i].x
    ensures Follow(c, xOf, PacketFor(c, hops, payload, control), |hops|)
      == (Packets(c, hops, payload, control), ProcessInner(c, Frame(payload, control)))
    decreases |hops|
  {
    if |hops| == 1 {
      FollowLast(c, xOf, hops, payload, control);
    } else {
      PeelAll(c, xOf, hops[1..], payload, control);
      FollowNext(c, xOf, hops, payload, control);
    }
  }

  lemma {:induction false} FollowNext(c: Codec, xOf: EdKey -> XKey, hops: seq<Hop>, payload: Bytes, control: Bytes)
    requires Sound(c) && |hops| > 1 && Fits(c, hops, payload, control) && xOf(hops[0].ed) == hops[0].x
    requires Follow(c, xOf, PacketFor(c, hops[1..], payload, control), |hops| - 1)
      == (Packets(c, hops[1..], payload, control), ProcessInner(c, Frame(payload, control)))
    ensures Follow(c, xOf, PacketFor(c, hops, payload, control), |hops|)
      == (Packets(c, hops, payload, control), ProcessInner(c, Frame(payload, control)))
  {
    PeelOne(c, hops, payload, control);
    FollowOn(c, xOf, PacketFor(c, hops, payload, control), |hops|, PacketFor(c, hops[1..], payload, control));
  }

  lemma {:induction false} FollowLast(c: Codec, xOf: EdKey -> XKey, hops: seq<Hop>, payload: Bytes, control: Bytes)
    requires Sound(c) && |hops| == 1 && xOf(hops[0].ed) == hops[0].x
    ensures Follow(c, xOf, PacketFor(c, hops, payload, control), 1)
      == (Packets(c, hops, payload, control), ProcessInner(c, Frame(payload, control)))
  {
    assert hops == [hops[0]];
    PeelLast(c, hops[0], payload, control);
    assert Packets(c, hops, payload, control) == [PacketFor(c, hops, payload, control)];
  }

  lemma {:induction false} PacketsVisit(c: Codec, hops: seq<Hop>, payload: Bytes, control: Bytes, i: nat)
    requires i < |hops|
    ensures var ps := Packets(c, hops, payload, control);
      |ps| == |hops| && ps[i].to == hops[i].ed && ps[i].eph == c.pub(hops[i].eph) && ps[i].et == hops[i].et
    decreases |hops|
  {
    if |hops| > 1 { PacketsVisit(c, hops[1..], payload, control, if i == 0 then 0 else i - 1); }
  }

  /** What the node that a request is first sent to, `to`, makes of it: the packet for itself. */
  function Received(c: Codec, to: EdKey, body: Bytes): Option<Packet> {
    var p := ParseCombined(c, body);
    if p.None? then None
    else
      var (ciphertext, j) := p.value;
      var eph := TextAt(j, "ephemeral_key");
      if eph.None? || c.unhex(eph.value).None? || EncTypeAt(j).None? then None
      else Some(Packet(to, ciphertext, c.unhex(eph.value).value, EncTypeAt(j).value))
  }

  /** The request that is built, sent to the first of its hops, is received there as that hop's packet, and
      from there on visits the others and ends as what was put in. */
  lemma BuiltArrives(c: Codec, xOf: EdKey -> XKey, hops: seq<Hop>, payload: Bytes, control: Bytes)
    requires Sound(c) && hops != [] && Fits(c, hops, payload, control) && |Layer(c, hops, payload, control)| < WORD
    requires forall i :: 0 <= i < |hops| ==> xOf(hops[i].ed) == hops[i].x
    ensures var blob := Frame(Layer(c, hops, payload, control), c.print_(Opening(c, hops[0])));
      && Received(c, hops[0].ed, blob) == Some(PacketFor(c, hops, payload, control))
      && Follow(c, xOf, Received(c, hops[0].ed, blob).value, |hops|)
         == (Packets(c, hops, payload, control), ProcessInner(c, Frame(payload, control)))
  {
    OpeningIsRead(c, hops, payload, control);
    PeelAll(c, xOf, hops, payload, control);
  }

  lemma OpeningIsRead(c: Codec, hops: seq<Hop>, payload: Bytes, control: Bytes)
    requires Sound(c) && hops != [] && |Layer(c, hops, payload, control)| < WORD
    ensures Received(c, hops[0].ed, Frame(Layer(c, hops, payload, control), c.print_(Opening(c, hops[0]))))
      == Some(PacketFor(c, hops, payload, control))
  {
    FrameRoundTrip(c, Layer(c, hops, payload, control), c.print_(Opening(c, hops[0])), Opening(c, hops[0]));
  }

  /** At the last hop, a request with headers in its control object is the payload, unchanged; one with a host
      goes to that host as it is. */
  lemma LastHopGets(c: Codec, payload: Bytes, control: Json)
    requires Sound(c) && |payload| < WORD
    ensures "headers" in control && FlagAt(control, "json", false).Some? && FlagAt(control, "base64", true).Some? ==>
      ProcessInner(c, Frame(payload, c.print_(control)))
        == FinalDestination(payload, FlagAt(control, "json", false).value, FlagAt(control, "base64", true).value)
    ensures "headers" !in control && "host" in control ==>
      ProcessInner(c, Frame(payload, c.print_(control))) == ProcessProxy(Frame(payload, c.print_(control)), control)
  {
    FrameRoundTrip(c, payload, c.print_(control), control);
  }

  /** The encryption that a control object asks for: by name, or AES-GCM if it names none. */
  predicate AsksFor(j: Json, et: EncType) {
    match et
    case XChaCha20 => "enc_type" in j && j["enc_type"].Str? && j["enc_type"].text in {"xchacha20", "xchacha20-poly1305"}
    case AesGcm => "enc_type" in j ==> j["enc_type"].Str? && j["enc_type"].text in {"aes-gcm", "gcm"}
  }

  /** A hop passes a request with neither headers nor a host on exactly if it names the next node, an ephemeral key and an
      encryption that is known: to that node, with that key and encryption. */
  lemma NodeIsNamed(c: Codec, payload: Bytes, control: Json)
    requires Sound(c) && |payload| < WORD && "headers" !in control && "host" !in control
    ensures var r := ProcessInner(c, Frame(payload, c.print_(control)));
      if r.RelayToNode?
      then && r.ciphertext == payload && AsksFor(control, r.et)
           && "destination" in control && control["destination"].Str? && c.unhex(control["destination"].text) == Some(r.next)
           && "ephemeral_key" in control && control["ephemeral_key"].Str? && c.unhex(control["ephemeral_key"].text) == Some(r.eph)
      else && r == InvalidJson
           && (|| (!AsksFor(control, XChaCha20) && !AsksFor(control, AesGcm))
               || "destination" !in control || !control["destination"].Str? || c.unhex(control["destination"].text).None?
               || "ephemeral_key" !in control || !control["ephemeral_key"].Str? || c.unhex(control["ephemeral_key"].text).None?)
  {
    FrameRoundTrip(c, payload, c.print_(control), control);
  }

  /** The last hop takes a request with headers exactly if its flags are flags: as the payload, answered as JSON only if
      asked, and in base64 unless asked not to. */
  lemma FlagsAreRead(c: Codec, payload: Bytes, control: Json)
    requires Sound(c) && |payload| < WORD && "headers" in control
    ensures var r := ProcessInner(c, Frame(payload, c.print_(control)));
      if ("json" in control && !control["json"].Flag?) || ("base64" in control && !control["base64"].Flag?) then r == InvalidJson
      else && r.FinalDestination? && r.body == payload
           && (r.json <==> "json" in control && control["json"].on) && (r.base64 <==> ("base64" in control ==> control["base64"].on))
  {
    FrameRoundTrip(c, payload, c.print_(control), control);
  }

  /** A control object that names a server well: host and target texts, and if they are there a numeric port and a
      protocol text. */
  predicate NamesServer(j: Json) {
    && "host" in j && j["host"].Str? && "target" in j && j["target"].Str?
    && ("port" in j ==> j["port"].Num?) && ("protocol" in j ==> j["protocol"].Str?)
  }

  /** The last hop passes a request with a host on exactly if it names the server well: the whole plaintext, to that host,
      port (cut to 16 bits), protocol and target, or port 443 and https where those are not given. */
  lemma ServerIsNamed(c: Codec, payload: Bytes, control: Json)
    requires Sound(c) && |payload| < WORD && "headers" !in control && "host" in control
    ensures var r := ProcessInner(c, Frame(payload, c.print_(control)));
      if !NamesServer(control) then r == InvalidJson
      else && r.RelayToServer? && r.payload == Frame(payload, c.print_(control))
           && r.host == control["host"].text && r.target == control["target"].text
           && ("port" in control ==> r.port < 65536 && (control["port"].n - r.port) % 65536 == 0)
           && ("port" !in control ==> r.port == 443)
           && r.protocol == if "protocol" in control then control["protocol"].text else "https"
  {
    LastHopGets(c, payload, control);
  }
}
