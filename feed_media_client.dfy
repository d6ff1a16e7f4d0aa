/** The FeedMedia client object: its fields, its constructor, the create()
    factory's defaulting, and buildPath() as the source writes it, by
    successive appends to a local string. */
module FeedMedia {
  import opened Php
  import opened FeedPath

  /** The entries create() reads from its dependency container. */
  datatype Container = Container(
    baseUrl: string,
    accountPid: Value,
    feedPid: Value,
    feedType: Value,
    feed: Value,
    ids: Value,
    ownerId: Value,
    guids: Value,
    seoTerms: Value)

  /** `$v ? $v : $default`: the value itself when it is true, else the
      default; so the result is true exactly when one of the two is. */
  function OrDefault(v: Value, default: Value): (r: Value)
    ensures Truthy(v) ==> r == v
    ensures !Truthy(v) ==> r == default
    ensures Truthy(r) <==> Truthy(v) || Truthy(default)
  {
    if Truthy(v) then v else default
  }

  /** The configuration create() hands to the constructor: each false entry
      is replaced by its default (NULL for the feed type, the owner ID, the
      GUIDs and the SEO terms, FALSE for the feed flag, the empty array for
      the IDs); true entries and both pids pass through unchanged. */
  function CreateConfig(k: Container): (c: Config)
    ensures c.accountPid == k.accountPid && c.feedPid == k.feedPid
    ensures Truthy(k.feedType) ==> c.feedType == k.feedType
    ensures Truthy(k.feed) ==> c.feed == k.feed
    ensures Truthy(k.ids) ==> c.ids == k.ids
    ensures Truthy(k.ownerId) ==> c.ownerId == k.ownerId
    ensures Truthy(k.guids) ==> c.guids == k.guids
    ensures Truthy(k.seoTerms) ==> c.seoTerms == k.seoTerms
    ensures !Truthy(k.feedType) ==> c.feedType == Null
    ensures !Truthy(k.feed) ==> c.feed == Bool(false)
    ensures !Truthy(k.ids) ==> c.ids == Arr([])
    ensures !Truthy(k.ownerId) ==> c.ownerId == Null
    ensures !Truthy(k.guids) ==> c.guids == Null
    ensures !Truthy(k.seoTerms) ==> c.seoTerms == Null
  {
    Config(k.accountPid, k.feedPid,
           OrDefault(k.feedType, Null),
           OrDefault(k.feed, Bool(false)),
           OrDefault(k.ids, Arr([])),
           OrDefault(k.ownerId, Null),
           OrDefault(k.guids, Null),
           OrDefault(k.seoTerms, Null))
  }

  /** The container's entries taken as they are, without create()'s
      defaulting. */
  function RawConfig(k: Container): Config {
    Config(k.accountPid, k.feedPid, k.feedType, k.feed, k.ids, k.ownerId, k.guids, k.seoTerms)
  }

  /** create()'s defaulting never changes the path nor whether it fails:
      the builder tests every defaulted field for truth before using it. */
  lemma CreateKeepsPath(k: Container)
    ensures BuildPath(CreateConfig(k)) == BuildPath(RawConfig(k))
  {
    var c1 := RawConfig(k);
    FalsyFieldsAddNothing(c1);
    var c2 := c1.(feedType := OrDefault(k.feedType, Null));
    FalsyFieldsAddNothing(c2);
    var c3 := c2.(feed := OrDefault(k.feed, Bool(false)));
    FalsyFieldsAddNothing(c3);
    var c4 := c3.(ids := OrDefault(k.ids, Arr([])));
    FalsyFieldsAddNothing(c4);
    var c5 := c4.(guids := OrDefault(k.guids, Null));
    FalsyFieldsAddNothing(c5);
    var c6 := c5.(seoTerms := OrDefault(k.seoTerms, Null));
    OwnerIdNeverRead(c6, OrDefault(k.ownerId, Null));
    assert c6.(ownerId := OrDefault(k.ownerId, Null)) == CreateConfig(k);
  }

  /** A container whose optional entries are all false gives the path of the
      two pids, exactly as the constructor's own defaults do, although
      create() defaults the GUIDs and the SEO terms to NULL where the
      constructor uses empty arrays. */
  lemma CreateDefaultsMatchConstructorDefaults(k: Container)
    requires !Truthy(k.feedType) && !Truthy(k.feed) && !Truthy(k.ids)
    requires !Truthy(k.guids) && !Truthy(k.seoTerms)
    ensures CreateConfig(k).guids == Null && CreateConfig(k).seoTerms == Null
    ensures BuildPath(CreateConfig(k))
            == BuildPath(Config(k.accountPid, k.feedPid, Null, Bool(false), Arr([]), Null, Arr([]), Arr([])))
            == Ok(ToStr(k.accountPid) + ToStr(k.feedPid))
  {
    OnlyPids(k.accountPid, k.feedPid);
    var c := CreateConfig(k);
    assert BuildPath(c).value == ToStr(k.accountPid) + ToStr(k.feedPid) + "" + "" + "" + "" + "";
    assert ToStr(k.accountPid) + ToStr(k.feedPid) + "" + "" + "" + "" + ""
           == ToStr(k.accountPid) + ToStr(k.feedPid);
  }

  /** Which operation of the MPX client collaborator is asked for. */
  datatype Operation = Fetch | CountItems

  /** The call handed to the MPX client collaborator: the operation and the
      path. */
  datatype Request = Request(op: Operation, path: string)

  class Client {
    var baseUrl: string
    var accountPid: Value
    var feedPid: Value
    var feedType: Value
    var feed: Value
    var ids: Value
    var ownerId: Value
    var guids: Value
    var seoTerms: Value

    /** The client's fields other than the collaborator and the base URL. */
    function Fields(): Config
      reads this
    {
      Config(accountPid, feedPid, feedType, feed, ids, ownerId, guids, seoTerms)
    }

    /** Stores every argument unchanged; the defaults are those of the
        source's parameter list. */
    constructor (baseUrl: string, accountPid: Value, feedPid: Value,
                 feedType: Value := Null, feed: Value := Bool(false), ids: Value := Arr([]),
                 ownerId: Value := Null, guids: Value := Arr([]), seoTerms: Value := Arr([]))
      ensures this.baseUrl == baseUrl
      ensures this.accountPid == accountPid && this.feedPid == feedPid
      ensures this.feedType == feedType && this.feed == feed && this.ids == ids
      ensures this.ownerId == ownerId && this.guids == guids && this.seoTerms == seoTerms
    {
      this.baseUrl := baseUrl;
      this.accountPid := accountPid;
      this.feedPid := feedPid;
      this.feedType := feedType;
      this.feed := feed;
      this.ids := ids;
      this.ownerId := ownerId;
      this.guids := guids;
      this.seoTerms := seoTerms;
    }

    /** create(): a new client from the container's entries, false optional
        entries replaced by their defaults. */
    static method Create(k: Container) returns (client: Client)
      ensures fresh(client)
      ensures client.baseUrl == k.baseUrl
      ensures client.Fields() == CreateConfig(k)
    {
      var c := CreateConfig(k);
      client := new Client(k.baseUrl, c.accountPid, c.feedPid, c.feedType, c.feed,
                           c.ids, c.ownerId, c.guids, c.seoTerms);
    }

    /** buildPath(): assigns no field, so a second call sees the same fields
        and returns the same result. */
    method BuildPath() returns (r: Result<string>)
      ensures r == FeedPath.BuildPath(Fields())
    {
      if Truthy(ids) && Truthy(guids) {
        return Err(MpxException(ConflictMessage));
      }
      var path := ToStr(accountPid);
      path := path + ToStr(feedPid);
      path := path + (if Truthy(feedType) then ToStr(feedType) else "");
      path := path + (if Truthy(feed) then "feed" else "");
      path := path + (if Truthy(ids) then Implode(",", ids) else "");
      ghost var beforeGuids := path;
      if Truthy(guids) {
        path := path + "guid/";
        path := path + (if Truthy(accountPid) then ToStr(accountPid) else "-");
        path := path + Implode(",", guids);
        RegroupTail(beforeGuids, "guid/", OwnerSlot(Fields()), Implode(",", guids));
      } else {
        assert path == beforeGuids + GuidSegment(Fields());
      }
      path := path + (if Truthy(seoTerms) then Implode(",", seoTerms) else "");
      r := Ok(path);
    }

    /** get(): the path is built first, so a conflicting configuration fails
        before anything reaches the collaborator. */
    method Get() returns (r: Result<Request>)
      ensures r.Err? <==> Conflict(Fields())
      ensures r.Err? ==> r.error.message == ConflictMessage
      ensures r.Ok? ==> r.value == Request(Fetch, FeedPath.BuildPath(Fields()).value)
    {
      var path := BuildPath();
      match path
      case Err(e) => r := Err(e);
      case Ok(p) => r := Ok(Request(Fetch, p));
    }

    /** count(): as get(), with the count operation. */
    method Count() returns (r: Result<Request>)
      ensures r.Err? <==> Conflict(Fields())
      ensures r.Err? ==> r.error.message == ConflictMessage
      ensures r.Ok? ==> r.value == Request(CountItems, FeedPath.BuildPath(Fields()).value)
    {
      var path := BuildPath();
      match path
      case Err(e) => r := Err(e);
      case Ok(p) => r := Ok(Request(CountItems, p));
    }
  }
}
