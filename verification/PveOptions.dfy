/** Proxmox option strings: composed for a create call (backend/internal/deploy/params.go),
    parsed from a guest's configuration (backend/internal/handlers/guest_detail.go). */
module PveOptions {
  import opened Decimal
  import opened Text
  import opened Wrappers

  // ---- requests --------------------------------------------------------------------------

  datatype GuestType = Qemu | Lxc
  datatype Source = Vztmpl(volId: string) | Iso(volId: string) | Image(volId: string) | CloneOf(vmid: int)
  datatype IpConfig = Dhcp | Static(cidr: string, gateway: string)

  /** The fields of a create request that reach an option string; ip is None without an ipConfig. */
  datatype Request = Request(
    guest: GuestType, source: Source, diskGB: int, storage: string, bridge: string,
    vlan: int, firewall: bool, ip: Option<IpConfig>)

  predicate IsAlnum(c: char) {
    IsDigit(c) || 'a' <= c <= 'z' || 'A' <= c <= 'Z'
  }

  predicate IsIdChar(c: char) {
    IsAlnum(c) || c == '.' || c == '_' || c == '-'
  }

  predicate AllId(s: string) {
    forall i | 0 <= i < |s| :: IsIdChar(s[i])
  }

  /** validPVEID. */
  predicate ValidId(s: string) {
    1 <= |s| <= 64 && IsAlnum(s[0]) && AllId(s)
  }

  predicate AllPath(s: string) {
    forall i | 0 <= i < |s| :: IsIdChar(s[i]) || s[i] == '/'
  }

  /** volIDRe: a storage, a colon, a path. */
  predicate ValidVolId(s: string) {
    var c := Cut(s, ':');
    && c.found && c.before != "" && IsAlnum(c.before[0]) && AllId(c.before)
    && c.after != "" && IsAlnum(c.after[0]) && AllPath(c.after)
  }

  predicate Digits(s: string, most: nat) {
    1 <= |s| <= most && AllDigits(s)
  }

  /** ipRe. */
  predicate ValidIp(s: string) {
    var p := Split(s, '.');
    |p| == 4 && forall i | 0 <= i < 4 :: Digits(p[i], 3)
  }

  /** cidrRe. */
  predicate ValidCidr(s: string) {
    var p := Split(s, '/');
    |p| == 2 && ValidIp(p[0]) && Digits(p[1], 2)
  }

  /** Validate, as far as the fields above go. */
  predicate Valid(req: Request) {
    && (match req.source
        case Vztmpl(volId) => req.guest == Lxc && ValidVolId(volId)
        case Iso(volId) => req.guest == Qemu && ValidVolId(volId)
        case Image(volId) => req.guest == Qemu && ValidVolId(volId)
        case CloneOf(vmid) => req.guest == Qemu && vmid >= 100)
    && (if !req.source.CloneOf? then req.diskGB >= 1 && ValidId(req.storage) && ValidId(req.bridge)
        else req.storage == "" || ValidId(req.storage))
    && 0 <= req.vlan <= 4094
    && (req.ip.Some? && req.ip.value.Static? ==>
          ValidCidr(req.ip.value.cidr) && (req.ip.value.gateway == "" || ValidIp(req.ip.value.gateway)))
  }

  // ---- composing ---------------------------------------------------------------------------

  datatype Pair = Pair(key: string, value: string)

  function Show(p: Pair): string {
    p.key + ['='] + p.value
  }

  function ShowAll(ps: seq<Pair>): (r: seq<string>)
    ensures |r| == |ps| && forall i | 0 <= i < |ps| :: r[i] == Show(ps[i])
  {
    seq(|ps|, i requires 0 <= i < |ps| => Show(ps[i]))
  }

  function TagPairs(req: Request): seq<Pair> {
    if req.vlan > 0 then [Pair("tag", Itoa(req.vlan))] else []
  }

  function FirewallPairs(req: Request): seq<Pair> {
    if req.firewall then [Pair("firewall", "1")] else []
  }

  function AddressPairs(req: Request): seq<Pair> {
    if req.guest == Qemu then []
    else if req.ip.Some? && req.ip.value.Static? then
      [Pair("ip", req.ip.value.cidr)] + if req.ip.value.gateway != "" then [Pair("gw", req.ip.value.gateway)] else []
    else [Pair("ip", "dhcp")]
  }

  function NamePairs(req: Request): seq<Pair> {
    if req.guest == Qemu then [] else [Pair("name", "eth0")]
  }

  function Net0Pairs(req: Request): seq<Pair> {
    NamePairs(req) + [Pair("bridge", req.bridge)] + TagPairs(req) + FirewallPairs(req) + AddressPairs(req)
  }

  function Bare(req: Request): seq<string> {
    if req.guest == Qemu then ["virtio"] else []
  }

  function Net0(req: Request): string {
    Join(Bare(req) + ShowAll(Net0Pairs(req)), ',')
  }

  lemma ShowAllMore(ps: seq<Pair>, p: Pair)
    ensures ShowAll(ps + [p]) == ShowAll(ps) + [Show(p)]
  {
  }

  lemma Shown(k: string, v: string)
    ensures k + "=" + v == Show(Pair(k, v))
    ensures "name=eth0" == Show(Pair("name", "eth0")) && "firewall=1" == Show(Pair("firewall", "1"))
    ensures "ip=dhcp" == Show(Pair("ip", "dhcp")) && "bridge=" == "bridge" + "=" && "tag=" == "tag" + "="
    ensures "ip=" == "ip" + "=" && "gw=" == "gw" + "="
  {
  }

  /** net0String. */
  method Net0String(req: Request) returns (s: string)
    ensures s == Net0(req)
  {
    hide Show, Join;
    var parts: seq<string> := [];
    ghost var ps: seq<Pair> := [];
    if req.guest == Qemu {
      parts := parts + ["virtio"];
    } else {
      Shown("", "");
      parts := parts + ["name=eth0"];
      ps := [Pair("name", "eth0")];
    }
    assert parts == Bare(req) + ShowAll(ps) && ps == NamePairs(req);
    parts, ps := AddPart(parts, Bare(req), ps, "bridge", req.bridge);
    if req.vlan > 0 {
      parts, ps := AddPart(parts, Bare(req), ps, "tag", Itoa(req.vlan));
    }
    if req.firewall {
      parts, ps := AddPart(parts, Bare(req), ps, "firewall", "1");
    }
    assert ps == NamePairs(req) + [Pair("bridge", req.bridge)] + TagPairs(req) + FirewallPairs(req);
    parts, ps := AddAddress(req, parts, Bare(req), ps);
    assert ps == Net0Pairs(req);
    return Join(parts, ',');
  }

  method AddAddress(req: Request, parts: seq<string>, ghost bare: seq<string>, ghost ps: seq<Pair>)
    returns (more: seq<string>, ghost mps: seq<Pair>)
    requires parts == bare + ShowAll(ps)
    ensures mps == ps + AddressPairs(req) && more == bare + ShowAll(mps)
  {
    hide Show;
    more, mps := parts, ps;
    if req.guest == Lxc {
      if req.ip.Some? && req.ip.value.Static? {
        more, mps := AddPart(more, bare, mps, "ip", req.ip.value.cidr);
        if req.ip.value.gateway != "" {
          more, mps := AddPart(more, bare, mps, "gw", req.ip.value.gateway);
        }
      } else {
        more, mps := AddPart(more, bare, mps, "ip", "dhcp");
      }
    }
  }

  /** parts = append(parts, key+"="+value) */
  method AddPart(parts: seq<string>, ghost bare: seq<string>, ghost ps: seq<Pair>, key: string, value: string)
    returns (more: seq<string>, ghost mps: seq<Pair>)
    requires parts == bare + ShowAll(ps)
    ensures more == parts + [key + "=" + value]
    ensures mps == ps + [Pair(key, value)] && more == bare + ShowAll(mps)
  {
    Shown(key, value);
    ShowAllMore(ps, Pair(key, value));
    more, mps := parts + [key + "=" + value], ps + [Pair(key, value)];
  }

  /** The volume and drive options a create call carries. */
  function Drives(req: Request): map<string, string>
    requires Valid(req) && !req.source.CloneOf?
  {
    match req.source
    case Vztmpl(_) => map["rootfs" := Join([req.storage + ":" + Itoa(req.diskGB)], ',')]
    case Image(volId) => map["scsi0" := Join([req.storage + ":0", Show(Pair("import-from", volId))], ',')]
    case Iso(volId) =>
      map["scsi0" := Join([req.storage + ":" + Itoa(req.diskGB)], ','), "ide2" := Join([volId, Show(Pair("media", "cdrom"))], ',')]
  }

  /** BuildCreateParams, for the option strings. */
  method BuildCreateParams(req: Request) returns (r: Option<map<string, string>>)
    ensures r.Some? <==> Valid(req) && !req.source.CloneOf?
    ensures r.Some? ==> r.value == Drives(req)["net0" := Net0(req)]
    ensures r.Some? ==> 1 <= req.diskGB && 0 <= req.vlan <= 4094 && (req.source.Vztmpl? <==> req.guest == Lxc)
  {
    if !Valid(req) || req.source.CloneOf? {
      return None;
    }
    var net0 := Net0String(req);
    var p := map["net0" := net0];
    if req.guest == Lxc {
      p := p["rootfs" := req.storage + ":" + Itoa(req.diskGB)];
      assert p == Drives(req)["net0" := net0];
      return Some(p);
    }
    if req.source.Image? {
      p := p["scsi0" := req.storage + ":0,import-from=" + req.source.volId];
      ImageDrive(req.storage, req.source.volId);
    } else {
      p := p["scsi0" := req.storage + ":" + Itoa(req.diskGB)];
      p := p["ide2" := req.source.volId + ",media=cdrom"];
      IsoDrive(req.source.volId);
    }
    assert p == Drives(req)["net0" := net0];
    return Some(p);
  }

  lemma ImageDrive(storage: string, volId: string)
    ensures Join([storage + ":0", Show(Pair("import-from", volId))], ',') == storage + ":0,import-from=" + volId
  {
    assert [storage + ":0", Show(Pair("import-from", volId))][1..] == [Show(Pair("import-from", volId))];
    assert ":0,import-from=" == ":0" + [','] + "import-from" + ['='];
  }

  lemma IsoDrive(volId: string)
    ensures Join([volId, Show(Pair("media", "cdrom"))], ',') == volId + ",media=cdrom"
  {
    assert [volId, Show(Pair("media", "cdrom"))][1..] == [Show(Pair("media", "cdrom"))];
  }

  // ---- parsing -----------------------------------------------------------------------------

  /** The key=value options among the parts, the last of a repeated key winning. */
  function OptionsOf(parts: seq<string>): map<string, string> {
    if parts == [] then map[]
    else
      var rest, c := OptionsOf(parts[..|parts| - 1]), Cut(parts[|parts| - 1], '=');
      if c.found then rest[TrimSpace(c.before) := TrimSpace(c.after)] else rest
  }

  /** parsePVEValue. */
  method ParsePveValue(s: string) returns (first: string, opts: map<string, string>)
    ensures first == Split(s, ',')[0] && opts == OptionsOf(Split(s, ','))
  {
    first, opts := "", map[];
    var parts := Split(s, ',');
    for i := 0 to |parts|
      invariant opts == OptionsOf(parts[..i])
      invariant i > 0 ==> first == parts[0]
    {
      assert parts[..i + 1][..i] == parts[..i];
      var c := Cut(parts[i], '=');
      if !c.found {
        if i == 0 {
          first := parts[i];
        }
        continue;
      }
      if i == 0 {
        first := parts[i];
      }
      opts := opts[TrimSpace(c.before) := TrimSpace(c.after)];
    }
    assert parts[..|parts|] == parts;
  }

  function Get(opts: map<string, string>, key: string): string {
    if key in opts then opts[key] else ""
  }

  datatype Nic = Nic(model: string, mac: string, bridge: string, vlan: int, firewall: bool, ip: string)

  function NicOf(first: string, opts: map<string, string>): Nic {
    var head, tag := Cut(first, '='), Atoi(Get(opts, "tag"));
    var named := !head.found || Get(opts, "name") != "";
    Nic(
      if named then Get(opts, "name") else head.before,
      if named then Get(opts, "hwaddr") else head.after,
      Get(opts, "bridge"),
      if tag.Some? then tag.value else 0,
      Get(opts, "firewall") == "1",
      Get(opts, "ip"))
  }

  datatype Disk = Disk(volume: string, storage: string, cdrom: bool)

  /** parseDisks, for one value: None for an empty drive. */
  function DiskOf(first: string, opts: map<string, string>): Option<Disk> {
    if first == "none" then None
    else
      var c := Cut(first, ':');
      Some(Disk(first, if c.found then c.before else "", Get(opts, "media") == "cdrom"))
  }

  // ---- clean strings ---------------------------------------------------------------------------

  /** Nothing in s ends an option, splits it, or is trimmed from it. */
  predicate Clean(s: string) {
    !Has(s, ',') && !Has(s, '=') && NoSpaces(s)
  }

  lemma IdIsClean(s: string)
    requires AllPath(s) || AllId(s) || AllDigits(s)
    ensures Clean(s)
  {
  }

  lemma CleanJoined(a: string, c: char, b: string)
    requires Clean(a) && Clean(b) && c != ',' && c != '=' && !IsSpace(c)
    ensures Clean(a + [c] + b)
  {
    var s := a + [c] + b;
    assert forall i | 0 <= i < |s| :: s[i] == (if i < |a| then a[i] else if i == |a| then c else b[i - |a| - 1]);
  }

  lemma {:induction false} CleanJoin(parts: seq<string>, sep: char)
    requires (forall i | 0 <= i < |parts| :: Clean(parts[i])) && sep != ',' && sep != '=' && !IsSpace(sep)
    ensures Clean(Join(parts, sep))
  {
    if |parts| > 1 {
      CleanJoin(parts[1..], sep);
      CleanJoined(parts[0], sep, Join(parts[1..], sep));
    }
  }

  lemma IpIsClean(s: string)
    requires ValidIp(s)
    ensures Clean(s)
  {
    hide Clean, Join;
    var p := Split(s, '.');
    forall i | 0 <= i < |p|
      ensures Clean(p[i])
    {
      assert Digits(p[i], 3);
      IdIsClean(p[i]);
    }
    CleanJoin(p, '.');
    JoinOfSplit(s, '.');
  }

  lemma CidrIsClean(s: string)
    requires ValidCidr(s)
    ensures Clean(s)
  {
    hide Clean, ValidIp, Join;
    var p := Split(s, '/');
    IpIsClean(p[0]);
    IdIsClean(p[1]);
    CleanJoin(p, '/');
    JoinOfSplit(s, '/');
  }

  lemma VolIdIsClean(s: string)
    requires ValidVolId(s)
    ensures Clean(s) && s != "none"
  {
    var c := Cut(s, ':');
    assert s == c.before + [':'] + c.after;
    IdIsClean(c.before);
    IdIsClean(c.after);
    CleanJoined(c.before, ':', c.after);
    assert s[|c.before|] == ':';
  }

  // ---- what is composed is what is parsed --------------------------------------------------------

  function MapOf(ps: seq<Pair>): map<string, string> {
    if ps == [] then map[] else MapOf(ps[..|ps| - 1])[ps[|ps| - 1].key := ps[|ps| - 1].value]
  }

  ghost predicate CleanPairs(ps: seq<Pair>) {
    forall i | 0 <= i < |ps| :: Clean(ps[i].key) && Clean(ps[i].value)
  }

  lemma ShowHasNoComma(p: Pair)
    requires Clean(p.key) && Clean(p.value)
    ensures !Has(Show(p), ',') && Cut(Show(p), '=') == CutResult(p.key, p.value, true)
    ensures TrimSpace(p.key) == p.key && TrimSpace(p.value) == p.value
  {
    CutOfPair(p.key, '=', p.value);
    NothingToTrim(p.key);
    NothingToTrim(p.value);
    var s := Show(p);
    assert forall i | 0 <= i < |s| ::
      s[i] == (if i < |p.key| then p.key[i] else if i == |p.key| then '=' else p.value[i - |p.key| - 1]);
  }

  /** Parsing a composed value gives back its pairs, after bare parts that hold no "=". */
  lemma {:induction false} OptionsOfPairs(bare: seq<string>, ps: seq<Pair>)
    requires OptionsOf(bare) == map[] && CleanPairs(ps)
    ensures OptionsOf(bare + ShowAll(ps)) == MapOf(ps)
  {
    hide Clean, Show, Cut, TrimSpace;
    var parts := bare + ShowAll(ps);
    if ps == [] {
      assert parts == bare;
    } else {
      var init, p := ps[..|ps| - 1], ps[|ps| - 1];
      OptionsOfPairs(bare, init);
      assert parts[..|parts| - 1] == bare + ShowAll(init);
      ShowHasNoComma(p);
    }
  }

  lemma SplitOfComposed(bare: seq<string>, ps: seq<Pair>)
    requires OptionsOf(bare) == map[] && CleanPairs(ps) && |bare| + |ps| >= 1
    requires forall i | 0 <= i < |bare| :: !Has(bare[i], ',')
    ensures var parts := Split(Join(bare + ShowAll(ps), ','), ',');
      parts == bare + ShowAll(ps) && OptionsOf(parts) == MapOf(ps)
  {
    hide Clean, Show, Cut, TrimSpace, Has, OptionsOf;
    var parts := bare + ShowAll(ps);
    forall i | 0 <= i < |parts|
      ensures !Has(parts[i], ',')
    {
      if i >= |bare| {
        ShowHasNoComma(ps[i - |bare|]);
      }
    }
    SplitOfJoin(parts, ',');
    OptionsOfPairs(bare, ps);
  }

  lemma OneBare(s: string)
    requires !Has(s, '=')
    ensures OptionsOf([s]) == map[] && OptionsOf([]) == map[]
  {
    assert [s][..0] == [];
    CutOfNone(s, '=');
  }

  lemma Net0PairsAreClean(req: Request)
    requires Valid(req) && !req.source.CloneOf?
    ensures CleanPairs(Net0Pairs(req))
  {
    hide Clean, ValidCidr, ValidIp, ValidVolId;
    LiteralsAreClean();
    IdIsClean(req.bridge);
    if req.vlan > 0 {
      IdIsClean(Itoa(req.vlan));
    }
    if req.ip.Some? && req.ip.value.Static? {
      CidrIsClean(req.ip.value.cidr);
      if req.ip.value.gateway != "" {
        IpIsClean(req.ip.value.gateway);
      }
    }
  }

  lemma LiteralsAreClean()
    ensures Clean("name") && Clean("eth0") && Clean("bridge") && Clean("tag") && Clean("firewall") && Clean("1")
    ensures Clean("ip") && Clean("gw") && Clean("dhcp") && Clean("media") && Clean("cdrom") && Clean("import-from")
  {
    hide Clean;
    NicLiteralsAreClean();
    DriveLiteralsAreClean();
  }

  lemma NicLiteralsAreClean()
    ensures Clean("name") && Clean("eth0") && Clean("bridge") && Clean("tag") && Clean("firewall") && Clean("1")
  {
  }

  lemma DriveLiteralsAreClean()
    ensures Clean("ip") && Clean("gw") && Clean("dhcp") && Clean("media") && Clean("cdrom") && Clean("import-from")
  {
  }

  lemma KeysDiffer()
    ensures "name" != "bridge" && "name" != "tag" && "name" != "firewall" && "name" != "ip" && "name" != "gw"
    ensures "bridge" != "tag" && "bridge" != "firewall" && "bridge" != "ip" && "bridge" != "gw"
    ensures "tag" != "firewall" && "tag" != "ip" && "tag" != "gw"
    ensures "firewall" != "ip" && "firewall" != "gw" && "ip" != "gw"
    ensures "hwaddr" != "name" && "hwaddr" != "bridge" && "hwaddr" != "tag" && "hwaddr" != "firewall" && "hwaddr" != "ip" && "hwaddr" != "gw"
  {
    assert "ip"[0] != "gw"[0];
    assert "hwaddr"[0] != "bridge"[0];
  }

  lemma MapOfMore(ps: seq<Pair>, more: seq<Pair>)
    requires |more| <= 1
    ensures MapOf(ps + more) == if more == [] then MapOf(ps) else MapOf(ps)[more[0].key := more[0].value]
  {
    if more == [] {
      assert ps + more == ps;
    } else {
      assert (ps + more)[..|ps|] == ps;
    }
  }

  function OwnAddress(req: Request): string {
    if req.guest == Qemu then ""
    else if req.ip.Some? && req.ip.value.Static? then req.ip.value.cidr else "dhcp"
  }

  function Gateway(req: Request): string {
    if req.guest == Lxc && req.ip.Some? && req.ip.value.Static? then req.ip.value.gateway else ""
  }

  function Update(m: map<string, string>, on: bool, key: string, value: string): map<string, string> {
    if on then m[key := value] else m
  }

  /** The options a composed net0 carries. */
  function Net0Map(req: Request): map<string, string> {
    var name := Update(map[], req.guest == Lxc, "name", "eth0");
    var tag := Update(name["bridge" := req.bridge], req.vlan > 0, "tag", if req.vlan > 0 then Itoa(req.vlan) else "");
    var fw := Update(tag, req.firewall, "firewall", "1");
    var ip := Update(fw, req.guest == Lxc, "ip", OwnAddress(req));
    Update(ip, Gateway(req) != "", "gw", Gateway(req))
  }

  lemma Net0PairsMap(req: Request)
    ensures MapOf(Net0Pairs(req)) == Net0Map(req)
  {
    hide MapOf;
    var ps := NamePairs(req);
    MapOfNone();
    MapOfMore([], ps);
    assert [] + ps == ps;
    MapOfMore(ps, [Pair("bridge", req.bridge)]);
    ps := ps + [Pair("bridge", req.bridge)];
    MapOfMore(ps, TagPairs(req));
    ps := ps + TagPairs(req);
    MapOfMore(ps, FirewallPairs(req));
    ps := ps + FirewallPairs(req);
    var a := AddressPairs(req);
    assert a == a[..if a == [] then 0 else 1] + a[if a == [] then 0 else 1..];
    MapOfMore(ps, a[..if a == [] then 0 else 1]);
    MapOfMore(ps + a[..if a == [] then 0 else 1], a[if a == [] then 0 else 1..]);
    assert ps + a == ps + a[..if a == [] then 0 else 1] + a[if a == [] then 0 else 1..];
  }

  lemma Net0MapHolds(req: Request)
    ensures var m := Net0Map(req);
      && "bridge" in m && m["bridge"] == req.bridge && Get(m, "name") == (if req.guest == Lxc then "eth0" else "")
      && Get(m, "tag") == (if req.vlan > 0 then Itoa(req.vlan) else "")
      && Get(m, "firewall") == (if req.firewall then "1" else "")
      && Get(m, "ip") == OwnAddress(req) && Get(m, "gw") == Gateway(req) && Get(m, "hwaddr") == ""
  {
    hide Gateway;
    KeysDiffer();
  }

  lemma Net0MapKeys(req: Request)
    ensures var m := Net0Map(req);
      && m.Keys <= {"name", "bridge", "tag", "firewall", "ip", "gw"}
      && ("name" in m <==> req.guest == Lxc) && ("tag" in m <==> req.vlan > 0) && ("firewall" in m <==> req.firewall)
      && ("ip" in m <==> req.guest == Lxc) && ("gw" in m <==> Gateway(req) != "")
  {
    hide Gateway, OwnAddress;
    KeysDiffer();
  }

  lemma MapOfNone()
    ensures MapOf([]) == map[]
  {
  }

  /** Reading back a composed net0 gives exactly the requested bridge, VLAN tag, firewall flag
      and, for a container, address; and no option that was not asked for slips in. */
  lemma Net0RoundTrip(req: Request)
    requires Valid(req) && !req.source.CloneOf?
    ensures var parts := Split(Net0(req), ','); var opts := OptionsOf(parts);
      var address := if req.guest == Qemu then "" else if req.ip.Some? && req.ip.value.Static? then req.ip.value.cidr else "dhcp";
      && NicOf(parts[0], opts) == Nic(if req.guest == Lxc then "eth0" else "", "", req.bridge, req.vlan, req.firewall, address)
      && Get(opts, "gw") == (if req.guest == Lxc && req.ip.Some? && req.ip.value.Static? then req.ip.value.gateway else "")
      && (req.guest == Qemu ==> parts[0] == "virtio")
    ensures var opts := OptionsOf(Split(Net0(req), ','));
      && opts == Net0Map(req)
      && opts.Keys <= {"name", "bridge", "tag", "firewall", "ip", "gw"}
      && ("name" in opts <==> req.guest == Lxc) && ("tag" in opts <==> req.vlan > 0) && ("firewall" in opts <==> req.firewall)
      && ("ip" in opts <==> req.guest == Lxc)
      && ("gw" in opts <==> req.guest == Lxc && req.ip.Some? && req.ip.value.Static? && req.ip.value.gateway != "")
  {
    hide Valid, Net0Pairs, Net0Map, MapOf, OptionsOf, Cut, Atoi, Split, Join;
    Net0PairsAreClean(req);
    OneBare("virtio");
    Net0Starts(req);
    SplitOfComposed(Bare(req), Net0Pairs(req));
    Net0PairsMap(req);
    Net0MapHolds(req);
    Net0MapKeys(req);
    TagReads(req);
    assert "1" != "" && "eth0" != "";
  }

  lemma TagReads(req: Request)
    requires Valid(req)
    ensures Atoi("").None? && (req.vlan > 0 ==> Atoi(Itoa(req.vlan)) == Some(req.vlan)) && req.vlan >= 0
  {
    if req.vlan > 0 {
      AtoiReadsItoa(req.vlan);
    }
  }

  lemma Net0Starts(req: Request)
    ensures |Net0Pairs(req)| >= 1
    ensures var parts := Bare(req) + ShowAll(Net0Pairs(req)); req.guest == Qemu ==> !Cut(parts[0], '=').found
    ensures forall i | 0 <= i < |Bare(req)| :: !Has(Bare(req)[i], ',')
  {
    CutOfNone("virtio", '=');
  }

  /** Reading back each composed drive gives its storage and volume; the installer image, and
      only it, reads as a CD-ROM; an imported image is named, and nothing else is added. */
  lemma DrivesRoundTrip(req: Request)
    requires Valid(req) && !req.source.CloneOf?
    ensures Drives(req).Keys ==
      match req.source
      case Vztmpl(_) => {"rootfs"}
      case Image(_) => {"scsi0"}
      case _ => {"scsi0", "ide2"}
    ensures ("rootfs" in Drives(req) <==> req.guest == Lxc) && ("scsi0" in Drives(req) <==> req.guest == Qemu)
    ensures "ide2" in Drives(req) <==> req.source.Iso?
    ensures forall key | key in Drives(req) ::
      var parts := Split(Drives(req)[key], ',');
      var d := DiskOf(parts[0], OptionsOf(parts));
      if key == "ide2" then
        d == Some(Disk(req.source.volId, Cut(req.source.volId, ':').before, true)) && OptionsOf(parts) == map["media" := "cdrom"]
      else
        && d == Some(Disk(parts[0], req.storage, false))
        && parts[0] == req.storage + ":" + (if req.source.Image? then "0" else Itoa(req.diskGB))
        && OptionsOf(parts) == if req.source.Image? then map["import-from" := req.source.volId] else map[]
  {
    hide ValidId, ValidVolId, OptionsOf, Split, Join;
    assert "scsi0" != "ide2" && "rootfs" != "ide2" && "rootfs"[0] != "scsi0"[0];
    match req.source
    case Vztmpl(_) =>
      DataDrive(req.storage, Itoa(req.diskGB), []);
    case Image(volId) =>
      VolIdIsClean(volId);
      LiteralsAreClean();
      assert req.storage + ":0" == req.storage + ":" + "0";
      DataDrive(req.storage, "0", [Pair("import-from", volId)]);
    case Iso(volId) =>
      DataDrive(req.storage, Itoa(req.diskGB), []);
      CdromDrive(volId);
  }

  lemma DriveHead(storage: string, size: string, opts: map<string, string>)
    requires ValidId(storage) && size != "" && AllDigits(size) && "media" !in opts
    ensures var first := storage + ":" + size;
      Clean(first) && DiskOf(first, opts) == Some(Disk(first, storage, false))
  {
    var first := storage + ":" + size;
    IdIsClean(storage);
    IdIsClean(size);
    CleanJoined(storage, ':', size);
    CutOfPair(storage, ':', size);
    assert first[|storage|] == ':';
  }

  lemma DataDrive(storage: string, size: string, ps: seq<Pair>)
    requires ValidId(storage) && size != "" && AllDigits(size)
    requires ps == [] || (|ps| == 1 && ps[0].key == "import-from" && CleanPairs(ps))
    ensures var first := storage + ":" + size; var s := Join(if ps == [] then [first] else [first, Show(ps[0])], ',');
      && Split(s, ',')[0] == first && OptionsOf(Split(s, ',')) == (if ps == [] then map[] else map[ps[0].key := ps[0].value])
      && DiskOf(first, OptionsOf(Split(s, ','))) == Some(Disk(first, storage, false))
  {
    hide ValidId, AllDigits, Split, Join, OptionsOf, DiskOf, Show;
    var first := storage + ":" + size;
    var opts := if ps == [] then map[] else map[ps[0].key := ps[0].value];
    assert "media" != "import-from";
    DriveHead(storage, size, opts);
    OneBare(first);
    assert CleanPairs(ps);
    SplitOfComposed([first], ps);
    assert [first] + ShowAll(ps) == if ps == [] then [first] else [first, Show(ps[0])];
    if ps != [] {
      assert ps[..0] == [];
    }
  }

  lemma CdromDrive(volId: string)
    requires ValidVolId(volId)
    ensures var s := Join([volId, Show(Pair("media", "cdrom"))], ',');
      && Split(s, ',')[0] == volId && OptionsOf(Split(s, ',')) == map["media" := "cdrom"]
      && DiskOf(volId, map["media" := "cdrom"]) == Some(Disk(volId, Cut(volId, ':').before, true))
  {
    var ps := [Pair("media", "cdrom")];
    VolIdIsClean(volId);
    LiteralsAreClean();
    OneBare(volId);
    SplitOfComposed([volId], ps);
    assert [volId] + ShowAll(ps) == [volId, Show(ps[0])];
    assert ps[..0] == [];
  }
}
