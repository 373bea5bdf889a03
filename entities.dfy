/**
 * The nodes the loader writes to the graph database, the mutation dictionaries
 * they serialise to, and the database itself reduced to what the loader sees of
 * it: every mutation is recorded and answered with a fresh uid.
 */
module Entities {
  import opened Wrappers

  // ----- Mutation dictionaries -----

  /** A JSON value of a mutation. */
  datatype Json = JStr(str: string) | JNull | JList(items: seq<Json>) | JObj(fields: map<string, Json>)

  type Dict = map<string, Json>

  /** Python's truthiness of an optional uid: set and not the empty string. */
  predicate Truthy(uid: Option<string>) {
    uid.Some? && uid.value != ""
  }

  /** The uid a dictionary carries, as the decoders below see it. */
  function Kept(uid: Option<string>): Option<string> {
    if Truthy(uid) then uid else None
  }

  /** The `uid` key, when a dictionary of a node with this uid carries one. */
  function UidKey(uid: Option<string>): set<string> {
    if Truthy(uid) then {"uid"} else {}
  }

  /** `if self.uid: d['uid'] = self.uid`. */
  function WithUid(d: Dict, uid: Option<string>): (r: Dict)
    requires "uid" !in d
    ensures "uid" in r <==> Truthy(uid)
    ensures Truthy(uid) ==> r["uid"] == JStr(uid.value)
    ensures r.Keys == d.Keys + UidKey(uid)
    ensures forall k | k in d :: r[k] == d[k]
  {
    if Truthy(uid) then d["uid" := JStr(uid.value)] else d
  }

  function OptStr(s: Option<string>): Json {
    if s.Some? then JStr(s.value) else JNull
  }

  /** `Commission.to_dict()`. */
  function CommissionDict(name: string, uid: Option<string>): (d: Dict)
    ensures d.Keys == {"dgraph.type", "name"} + UidKey(uid)
    ensures d["dgraph.type"] == JStr("Commission") && d["name"] == JStr(name)
    ensures "uid" in d <==> Truthy(uid)
  {
    WithUid(map["dgraph.type" := JStr("Commission"), "name" := JStr(name)], uid)
  }

  /** `Ministry.to_dict()`. */
  function MinistryDict(name: string, uid: Option<string>): (d: Dict)
    ensures d.Keys == {"dgraph.type", "name"} + UidKey(uid)
    ensures d["dgraph.type"] == JStr("Ministry") && d["name"] == JStr(name)
    ensures "uid" in d <==> Truthy(uid)
  {
    WithUid(map["dgraph.type" := JStr("Ministry"), "name" := JStr(name)], uid)
  }

  /** `Law.to_dict()`; `developedBy` is the dictionary of the attached commission, if any. */
  function LawDict(title: string, lawType: string, link: Option<string>, createdAt: string,
                   developedBy: Option<Dict>, uid: Option<string>): (d: Dict)
    ensures d.Keys == {"dgraph.type", "title", "type", "link", "created_at"}
      + (if developedBy.Some? then {"developed_by"} else {}) + UidKey(uid)
    ensures d["dgraph.type"] == JStr("Law") && d["title"] == JStr(title)
    ensures d["type"] == JStr(lawType) && d["link"] == OptStr(link) && d["created_at"] == JStr(createdAt)
    ensures "developed_by" in d <==> developedBy.Some?
    ensures developedBy.Some? ==> d["developed_by"] == JObj(developedBy.value)
    ensures "uid" in d <==> Truthy(uid)
  {
    var base := map["dgraph.type" := JStr("Law"), "title" := JStr(title), "type" := JStr(lawType),
                     "link" := OptStr(link), "created_at" := JStr(createdAt)];
    var withCommission := if developedBy.Some? then base["developed_by" := JObj(developedBy.value)] else base;
    WithUid(withCommission, uid)
  }

  /** `Deputy.to_dict()`; `workAt` holds the dictionaries of the deputy's commissions, in order. */
  function DeputyDict(name: string, party: string, workAt: seq<Dict>, uid: Option<string>): (d: Dict)
    ensures d.Keys == {"dgraph.type", "name", "party", "work_at"} + UidKey(uid)
    ensures d["dgraph.type"] == JStr("Deputy") && d["name"] == JStr(name) && d["party"] == JStr(party)
    ensures d["work_at"] == JList(seq(|workAt|, i requires 0 <= i < |workAt| => JObj(workAt[i])))
    ensures "uid" in d <==> Truthy(uid)
  {
    var items := seq(|workAt|, i requires 0 <= i < |workAt| => JObj(workAt[i]));
    WithUid(map["dgraph.type" := JStr("Deputy"), "name" := JStr(name), "party" := JStr(party),
                "work_at" := JList(items)], uid)
  }

  /** `Minister.to_dict()`; `ministry` is the dictionary of the minister's ministry. */
  function MinisterDict(name: string, party: string, ministry: Dict, uid: Option<string>): (d: Dict)
    ensures d.Keys == {"dgraph.type", "name", "party", "work_at"} + UidKey(uid)
    ensures d["dgraph.type"] == JStr("Minister") && d["name"] == JStr(name) && d["party"] == JStr(party)
    ensures d["work_at"] == JObj(ministry)
    ensures "uid" in d <==> Truthy(uid)
  {
    WithUid(map["dgraph.type" := JStr("Minister"), "name" := JStr(name), "party" := JStr(party),
                "work_at" := JObj(ministry)], uid)
  }

  // ----- Reading the dictionaries back -----

  /** What a Commission or Ministry dictionary says about its node. */
  datatype NamedNode = NamedNode(name: string, uid: Option<string>)
  datatype LawNode = LawNode(title: string, lawType: string, link: Option<string>, createdAt: string,
                             developedBy: Option<NamedNode>, uid: Option<string>)
  datatype DeputyNode = DeputyNode(name: string, party: string, workAt: seq<NamedNode>, uid: Option<string>)
  datatype MinisterNode = MinisterNode(name: string, party: string, ministry: NamedNode, uid: Option<string>)

  function GetStr(d: Dict, key: string): Option<string> {
    if key in d && d[key].JStr? then Some(d[key].str) else None
  }

  function GetOptStr(d: Dict, key: string): Option<Option<string>> {
    if key in d && d[key].JStr? then Some(Some(d[key].str))
    else if key in d && d[key].JNull? then Some(None)
    else None
  }

  /** Reads a dictionary of the given type tag that has a name. */
  function ParseNamed(d: Dict, tag: string): Option<NamedNode> {
    if GetStr(d, "dgraph.type") == Some(tag) && GetStr(d, "name").Some? then
      Some(NamedNode(GetStr(d, "name").value, GetStr(d, "uid")))
    else None
  }

  function ParseNamedList(items: seq<Json>, tag: string): Option<seq<NamedNode>> {
    if items == [] then Some([])
    else if !items[0].JObj? then None
    else
      var head := ParseNamed(items[0].fields, tag);
      var tail := ParseNamedList(items[1..], tag);
      if head.Some? && tail.Some? then Some([head.value] + tail.value) else None
  }

  function ParseLaw(d: Dict): Option<LawNode> {
    var title := GetStr(d, "title");
    var lawType := GetStr(d, "type");
    var link := GetOptStr(d, "link");
    var createdAt := GetStr(d, "created_at");
    var developedBy :=
      if "developed_by" !in d then Some(None)
      else if d["developed_by"].JObj? && ParseNamed(d["developed_by"].fields, "Commission").Some? then
        Some(ParseNamed(d["developed_by"].fields, "Commission"))
      else None;
    if GetStr(d, "dgraph.type") == Some("Law") && title.Some? && lawType.Some? && link.Some?
       && createdAt.Some? && developedBy.Some? then
      Some(LawNode(title.value, lawType.value, link.value, createdAt.value, developedBy.value, GetStr(d, "uid")))
    else None
  }

  function ParseDeputy(d: Dict): Option<DeputyNode> {
    var name := GetStr(d, "name");
    var party := GetStr(d, "party");
    var workAt := if "work_at" in d && d["work_at"].JList? then ParseNamedList(d["work_at"].items, "Commission") else None;
    if GetStr(d, "dgraph.type") == Some("Deputy") && name.Some? && party.Some? && workAt.Some? then
      Some(DeputyNode(name.value, party.value, workAt.value, GetStr(d, "uid")))
    else None
  }

  function ParseMinister(d: Dict): Option<MinisterNode> {
    var name := GetStr(d, "name");
    var party := GetStr(d, "party");
    var ministry := if "work_at" in d && d["work_at"].JObj? then ParseNamed(d["work_at"].fields, "Ministry") else None;
    if GetStr(d, "dgraph.type") == Some("Minister") && name.Some? && party.Some? && ministry.Some? then
      Some(MinisterNode(name.value, party.value, ministry.value, GetStr(d, "uid")))
    else None
  }

  // ----- Round trips: a dictionary loses nothing but a falsy uid -----

  lemma CommissionDictRoundTrip(name: string, uid: Option<string>)
    ensures ParseNamed(CommissionDict(name, uid), "Commission") == Some(NamedNode(name, Kept(uid)))
  {
  }

  lemma MinistryDictRoundTrip(name: string, uid: Option<string>)
    ensures ParseNamed(MinistryDict(name, uid), "Ministry") == Some(NamedNode(name, Kept(uid)))
  {
  }

  lemma LawDictRoundTrip(title: string, lawType: string, link: Option<string>, createdAt: string,
                         commission: Option<NamedNode>, uid: Option<string>)
    ensures var developedBy := if commission.Some? then Some(CommissionDict(commission.value.name, commission.value.uid)) else None;
      var attached := if commission.Some? then Some(NamedNode(commission.value.name, Kept(commission.value.uid))) else None;
      ParseLaw(LawDict(title, lawType, link, createdAt, developedBy, uid))
        == Some(LawNode(title, lawType, link, createdAt, attached, Kept(uid)))
  {
    if commission.Some? {
      CommissionDictRoundTrip(commission.value.name, commission.value.uid);
    }
  }

  /** The dictionaries of a list of commissions, as `work_at` holds them. */
  function CommissionDicts(cs: seq<NamedNode>): seq<Dict> {
    seq(|cs|, i requires 0 <= i < |cs| => CommissionDict(cs[i].name, cs[i].uid))
  }

  function KeptNodes(cs: seq<NamedNode>): seq<NamedNode> {
    seq(|cs|, i requires 0 <= i < |cs| => NamedNode(cs[i].name, Kept(cs[i].uid)))
  }

  lemma {:induction false} CommissionListRoundTrip(cs: seq<NamedNode>)
    ensures var ds := CommissionDicts(cs);
      ParseNamedList(seq(|ds|, i requires 0 <= i < |ds| => JObj(ds[i])), "Commission") == Some(KeptNodes(cs))
  {
    var ds := CommissionDicts(cs);
    var items := seq(|ds|, i requires 0 <= i < |ds| => JObj(ds[i]));
    if cs != [] {
      CommissionListRoundTrip(cs[1..]);
      CommissionDictRoundTrip(cs[0].name, cs[0].uid);
      var ds' := CommissionDicts(cs[1..]);
      assert items[1..] == seq(|ds'|, i requires 0 <= i < |ds'| => JObj(ds'[i]));
      assert KeptNodes(cs) == [NamedNode(cs[0].name, Kept(cs[0].uid))] + KeptNodes(cs[1..]);
    }
  }

  lemma DeputyDictRoundTrip(name: string, party: string, commissions: seq<NamedNode>, uid: Option<string>)
    ensures ParseDeputy(DeputyDict(name, party, CommissionDicts(commissions), uid))
      == Some(DeputyNode(name, party, KeptNodes(commissions), Kept(uid)))
  {
    CommissionListRoundTrip(commissions);
  }

  lemma MinisterDictRoundTrip(name: string, party: string, ministry: NamedNode, uid: Option<string>)
    ensures ParseMinister(MinisterDict(name, party, MinistryDict(ministry.name, ministry.uid), uid))
      == Some(MinisterNode(name, party, NamedNode(ministry.name, Kept(ministry.uid)), Kept(uid)))
  {
    MinistryDictRoundTrip(ministry.name, ministry.uid);
  }
  // ----- The database, reduced to a uid generator -----

  function HexDigit(d: nat): char
    requires d < 16
  {
    if d < 10 then ('0' as int + d) as char else ('a' as int + d - 10) as char
  }

  function Hex(n: nat): string {
    if n < 16 then [HexDigit(n)] else Hex(n / 16) + [HexDigit(n % 16)]
  }

  /** A hexadecimal numeral has at least one digit, and two or more exactly from 16 on. */
  lemma {:induction false} HexLength(n: nat)
    ensures |Hex(n)| >= 1 && (n >= 16 <==> |Hex(n)| >= 2)
  {
    if n >= 16 {
      HexLength(n / 16);
    }
  }

  /** Dgraph's uid of the `n`-th node it creates (counting from 0): `0x1`, `0x2`, ... */
  function DgraphUid(n: nat): string {
    "0x" + Hex(n + 1)
  }

  lemma {:induction false} HexInjective(a: nat, b: nat)
    requires Hex(a) == Hex(b)
    ensures a == b
  {
    HexLength(a);
    HexLength(b);
    if a >= 16 {
      var ha, hb := Hex(a), Hex(b);
      assert ha[|ha| - 1] == HexDigit(a % 16) && hb[|hb| - 1] == HexDigit(b % 16);
      assert Hex(a / 16) == ha[..|ha| - 1] == hb[..|hb| - 1] == Hex(b / 16);
      HexInjective(a / 16, b / 16);
    }
  }

  /**
   * Dgraph's numbering of new nodes: every uid is truthy, and no two nodes share
   * one, so each mutation is answered with a uid not given out before.
   */
  lemma DgraphUidScheme()
    ensures forall n: nat :: Truthy(Some(DgraphUid(n)))
    ensures forall m: nat, n: nat | m != n :: DgraphUid(m) != DgraphUid(n)
  {
    forall m: nat, n: nat | m != n
      ensures DgraphUid(m) != DgraphUid(n)
    {
      if DgraphUid(m) == DgraphUid(n) {
        assert Hex(m + 1) == DgraphUid(m)[2..] == DgraphUid(n)[2..] == Hex(n + 1);
        HexInjective(m + 1, n + 1);
      }
    }
  }

  /**
   * The graph database: `log` is every mutation sent so far, and `next` counts
   * them; each mutation creates a node and answers with the uid `DgraphUid(next)`.
   */
  class Database {
    var next: nat
    var log: seq<Dict>

    ghost predicate Valid()
      reads this
    {
      next == |log|
    }

    constructor ()
      ensures Valid() && log == []
    {
      next, log := 0, [];
    }

    /** `txn.mutate(set_obj=obj)` followed by reading the new node's uid off the response. */
    method Mutate(obj: Dict) returns (uid: string)
      requires Valid()
      modifies this
      ensures Valid() && log == old(log) + [obj]
      ensures uid == DgraphUid(old(next))
    {
      uid := DgraphUid(next);
      log := log + [obj];
      next := next + 1;
    }
  }

  // ----- The entities -----

  /** A legislative commission. */
  class Commission {
    var uid: Option<string>
    const name: string

    constructor (name: string)
      ensures this.name == name && uid == None
    {
      this.name := name;
      uid := None;
    }

    function ToDict(): Dict
      reads this
    {
      CommissionDict(name, uid)
    }

    /** Decoding the commission's dictionary gives back its name, and its uid when truthy. */
    lemma ToDictRoundTrip()
      ensures ParseNamed(ToDict(), "Commission") == Some(NamedNode(name, Kept(uid)))
    {
      CommissionDictRoundTrip(name, uid);
    }

    /** `Commission.create_law`: a new law, not yet stored, developed by this commission. */
    method CreateLaw(title: string, lawType: string, link: Option<string>, createdAt: string)
      returns (law: Law)
      ensures fresh(law) && law.uid == None && law.commission == this
      ensures law.title == title && law.lawType == lawType && law.link == link && law.createdAt == createdAt
    {
      law := new Law(title, lawType, link, createdAt);
      law.commission := this;
    }
  }

  /** A law; `createdAt` is the creation time, already in ISO format. */
  class Law {
    var uid: Option<string>
    const title: string
    const lawType: string
    const link: Option<string>
    const createdAt: string
    var commission: Commission?

    constructor (title: string, lawType: string, link: Option<string>, createdAt: string)
      ensures uid == None && commission == null
      ensures this.title == title && this.lawType == lawType && this.link == link && this.createdAt == createdAt
    {
      this.title, this.lawType, this.link, this.createdAt := title, lawType, link, createdAt;
      uid, commission := None, null;
    }

    function ToDict(): Dict
      reads this, commission
    {
      LawDict(title, lawType, link, createdAt, if commission == null then None else Some(commission.ToDict()), uid)
    }

    /** Decoding the law's dictionary gives back every field and the commission it is attached to. */
    lemma ToDictRoundTrip()
      ensures ParseLaw(ToDict()) == Some(LawNode(title, lawType, link, createdAt,
        if commission == null then None else Some(NamedNode(commission.name, Kept(commission.uid))), Kept(uid)))
    {
      LawDictRoundTrip(title, lawType, link, createdAt,
        if commission == null then None else Some(NamedNode(commission.name, commission.uid)), uid);
    }
  }

  /** The dictionaries of the commissions, in order: `[c.to_dict() for c in commissions]`. */
  function WorkAt(commissions: seq<Commission>): (ds: seq<Dict>)
    reads commissions
    ensures |ds| == |commissions|
  {
    seq(|commissions|, i reads commissions requires 0 <= i < |commissions| => commissions[i].ToDict())
  }

  /** What the commission objects `cs` say about themselves, in order. */
  ghost function Nodes(cs: seq<Commission>): seq<NamedNode>
    reads cs
  {
    seq(|cs|, i reads cs requires 0 <= i < |cs| => NamedNode(cs[i].name, cs[i].uid))
  }

  /**
   * The `work_at` list of the objects holds the dictionary of each commission, in
   * order: the commission dictionaries of their nodes.
   */
  lemma WorkAtNodes(cs: seq<Commission>)
    ensures forall i | 0 <= i < |cs| :: WorkAt(cs)[i] == CommissionDict(cs[i].name, cs[i].uid)
    ensures WorkAt(cs) == CommissionDicts(Nodes(cs))
  {
  }

  /** A deputy and the commissions they work at. */
  class Deputy {
    var uid: Option<string>
    const name: string
    const party: string
    var commissions: seq<Commission>

    constructor (name: string, party: string)
      ensures this.name == name && this.party == party && uid == None && commissions == []
    {
      this.name, this.party := name, party;
      uid, commissions := None, [];
    }

    /** `Deputy.add_commission`: appends, leaving the earlier commissions as they were. */
    method AddCommission(commission: Commission)
      modifies this
      ensures commissions == old(commissions) + [commission] && uid == old(uid)
    {
      commissions := commissions + [commission];
    }

    function ToDict(): Dict
      reads this, commissions
    {
      DeputyDict(name, party, WorkAt(commissions), uid)
    }

    /** Decoding the deputy's dictionary gives back its commissions, in the order they were added. */
    lemma ToDictRoundTrip()
      ensures ParseDeputy(ToDict()) == Some(DeputyNode(name, party, KeptNodes(Nodes(commissions)), Kept(uid)))
    {
      WorkAtNodes(commissions);
      DeputyDictRoundTrip(name, party, Nodes(commissions), uid);
    }
  }

  /** A ministry, linked back to its minister once one is appointed. */
  class Ministry {
    var uid: Option<string>
    const name: string
    var minister: Minister?

    constructor (name: string)
      ensures this.name == name && uid == None && minister == null
    {
      this.name := name;
      uid, minister := None, null;
    }

    function ToDict(): Dict
      reads this
    {
      MinistryDict(name, uid)
    }

    /** Decoding the ministry's dictionary gives back its name, and its uid when truthy. */
    lemma ToDictRoundTrip()
      ensures ParseNamed(ToDict(), "Ministry") == Some(NamedNode(name, Kept(uid)))
    {
      MinistryDictRoundTrip(name, uid);
    }
  }

  /** A minister; constructing one records it as its ministry's minister. */
  class Minister {
    var uid: Option<string>
    const name: string
    const party: string
    const ministry: Ministry

    constructor (name: string, party: string, ministry: Ministry)
      modifies ministry
      ensures this.name == name && this.party == party && uid == None
      ensures this.ministry == ministry && ministry.minister == this && ministry.uid == old(ministry.uid)
    {
      this.name, this.party, this.ministry := name, party, ministry;
      uid := None;
      new;
      ministry.minister := this;
    }

    function ToDict(): Dict
      reads this, ministry
    {
      MinisterDict(name, party, ministry.ToDict(), uid)
    }

    /** Decoding the minister's dictionary gives back name, party and ministry, and the uid when truthy. */
    lemma ToDictRoundTrip()
      ensures ParseMinister(ToDict())
        == Some(MinisterNode(name, party, NamedNode(ministry.name, Kept(ministry.uid)), Kept(uid)))
    {
      MinisterDictRoundTrip(name, party, NamedNode(ministry.name, ministry.uid), uid);
    }
  }
}
