/** The path that the FeedMedia client requests: a pure function of the
    client's configuration, and what can be proved about it. */
module FeedPath {
  import opened Php

  /** The exception buildPath throws for incompatible options. */
  datatype MpxException = MpxException(message: string)

  datatype Result<T> = Ok(value: T) | Err(error: MpxException)

  /** The value of __CLASS__ inside the client. */
  const ClassName: string := "Mpx\\Services\\FeedMedia\\Client"

  const ConflictMessage: string := "Cannot provide IDs and GUIDs for the " + ClassName + " client."

  /** The client's fields other than the collaborator and the base URL,
      the owner ID among them although the path never reads it. Each may hold any PHP
      value: neither the constructor nor create() checks a type. */
  datatype Config = Config(
    accountPid: Value,
    feedPid: Value,
    feedType: Value,
    feed: Value,
    ids: Value,
    ownerId: Value,
    guids: Value,
    seoTerms: Value)

  /** Numeric IDs and GUIDs were both supplied. */
  predicate Conflict(c: Config) {
    Truthy(c.ids) && Truthy(c.guids)
  }

  /** What a field contributes when it is tested with `?:` before it is
      appended: its text if it is true, nothing otherwise. */
  function IfTruthy(v: Value): string {
    if Truthy(v) then ToStr(v) else ""
  }

  /** A list field, comma-joined, when it is true. */
  function ListSegment(v: Value): string {
    if Truthy(v) then Implode(",", v) else ""
  }

  /** The owner slot of the GUID segment: the account pid, or '-' when the
      account pid is false. The ownerId field is not read. The slot is never
      empty and never '0'. */
  function OwnerSlot(c: Config): (r: string)
    ensures r != "" && r != "0"
    ensures r == "-" <==> !Truthy(c.accountPid) || c.accountPid == Str("-")
    ensures Truthy(c.accountPid) ==> r == ToStr(c.accountPid)
  {
    if Truthy(c.accountPid) then ToStr(c.accountPid) else "-"
  }

  function GuidSegment(c: Config): string {
    if Truthy(c.guids) then "guid/" + OwnerSlot(c) + Implode(",", c.guids) else ""
  }

  /** buildPath(): refuses IDs together with GUIDs before anything is built;
      otherwise the account pid, the feed pid, then the optional segments in
      their fixed order. */
  function BuildPath(c: Config): (r: Result<string>)
    ensures r.Err? <==> Truthy(c.ids) && Truthy(c.guids)
    ensures r.Err? ==> r.error.message == ConflictMessage
    ensures r.Ok? ==> ToStr(c.accountPid) + ToStr(c.feedPid) <= r.value
  {
    if Conflict(c) then Err(MpxException(ConflictMessage))
    else
      Ok(ToStr(c.accountPid) + ToStr(c.feedPid)
         + IfTruthy(c.feedType)
         + (if Truthy(c.feed) then "feed" else "")
         + ListSegment(c.ids)
         + GuidSegment(c)
         + ListSegment(c.seoTerms))
  }

  /** The ownerId field never reaches the path. */
  lemma OwnerIdNeverRead(c: Config, owner: Value)
    ensures BuildPath(c.(ownerId := owner)) == BuildPath(c)
  {
  }

  /** With only the account pid and the feed pid given and every other
      argument at the constructor's default, the path is the two pids. */
  lemma OnlyPids(accountPid: Value, feedPid: Value)
    ensures BuildPath(Config(accountPid, feedPid, Null, Bool(false), Arr([]), Null, Arr([]), Arr([])))
            == Ok(ToStr(accountPid) + ToStr(feedPid))
  {
    var pids := ToStr(accountPid) + ToStr(feedPid);
    assert pids + "" + "" + "" + "" + "" == pids;
  }

  /** An optional field that is false adds nothing: resetting it to a default
      (the constructor's for the feed type, the flag and the IDs; create()'s
      NULL for the GUIDs and the SEO terms) leaves the result unchanged. */
  lemma FalsyFieldsAddNothing(c: Config)
    ensures !Truthy(c.feedType) ==> BuildPath(c) == BuildPath(c.(feedType := Null))
    ensures !Truthy(c.feed) ==> BuildPath(c) == BuildPath(c.(feed := Bool(false)))
    ensures !Truthy(c.ids) ==> BuildPath(c) == BuildPath(c.(ids := Arr([])))
    ensures !Truthy(c.guids) ==> BuildPath(c) == BuildPath(c.(guids := Null))
    ensures !Truthy(c.seoTerms) ==> BuildPath(c) == BuildPath(c.(seoTerms := Null))
  {
  }

  /** `path` is `base` with `text` inserted at position `k`. */
  predicate InsertedAt(path: string, base: string, k: nat, text: string) {
    k <= |base| && path == base[..k] + text + base[k..]
  }

  lemma InsertBetween(front: string, text: string, back: string)
    ensures InsertedAt(front + text + back, front + back, |front|, text)
  {
    assert (front + back)[..|front|] == front;
    assert (front + back)[|front|..] == back;
  }

  /** A front part followed by three parts appended one after the other is
      the front part followed by the three parts joined. */
  lemma RegroupTail(front: string, a: string, b: string, c: string)
    ensures front + a + b + c == front + (a + b + c)
  {
  }

  /** A true feed type comes right after the two pids. */
  lemma FeedTypeFollowsPids(c: Config)
    requires !Conflict(c) && Truthy(c.feedType)
    ensures BuildPath(c).Ok? && BuildPath(c.(feedType := Null)).Ok?
    ensures InsertedAt(BuildPath(c).value, BuildPath(c.(feedType := Null)).value,
                       |ToStr(c.accountPid) + ToStr(c.feedPid)|, ToStr(c.feedType))
  {
    var front := ToStr(c.accountPid) + ToStr(c.feedPid);
    var back := (if Truthy(c.feed) then "feed" else "") + ListSegment(c.ids)
                + GuidSegment(c) + ListSegment(c.seoTerms);
    var feedSeg := if Truthy(c.feed) then "feed" else "";
    InsertBetween(front, ToStr(c.feedType), back);
    RegroupTail(front + ToStr(c.feedType), feedSeg + ListSegment(c.ids), GuidSegment(c), ListSegment(c.seoTerms));
    assert front + ToStr(c.feedType) + feedSeg + ListSegment(c.ids) == front + ToStr(c.feedType) + (feedSeg + ListSegment(c.ids));
    assert front + "" == front;
    RegroupTail(front, feedSeg + ListSegment(c.ids), GuidSegment(c), ListSegment(c.seoTerms));
    assert front + feedSeg + ListSegment(c.ids) == front + (feedSeg + ListSegment(c.ids));
  }

  /** A true feed flag inserts the literal 'feed' right after everything the
      pids and the feed type contribute. */
  lemma FeedFlagFollowsFeedType(c: Config)
    requires !Conflict(c) && Truthy(c.feed)
    ensures BuildPath(c).Ok? && BuildPath(c.(feed := Bool(false))).Ok?
    ensures InsertedAt(BuildPath(c).value, BuildPath(c.(feed := Bool(false))).value,
                       |BuildPath(c.(feed := Bool(false), ids := Arr([]), guids := Null, seoTerms := Null)).value|,
                       "feed")
  {
    var front := ToStr(c.accountPid) + ToStr(c.feedPid) + IfTruthy(c.feedType);
    var back := ListSegment(c.ids) + GuidSegment(c) + ListSegment(c.seoTerms);
    InsertBetween(front, "feed", back);
    RegroupTail(front + "feed", ListSegment(c.ids), GuidSegment(c), ListSegment(c.seoTerms));
    assert front + "" == front;
    RegroupTail(front, ListSegment(c.ids), GuidSegment(c), ListSegment(c.seoTerms));
    assert BuildPath(c.(feed := Bool(false), ids := Arr([]), guids := Null, seoTerms := Null)).value
           == front + "" + "" + "" + "";
    assert front + "" + "" + "" + "" == front;
  }

  /** True numeric IDs insert their comma-joined list right after everything
      the earlier fields contribute. */
  lemma IdsFollowFeedFlag(c: Config)
    requires !Conflict(c) && Truthy(c.ids)
    ensures BuildPath(c).Ok? && BuildPath(c.(ids := Arr([]))).Ok?
    ensures InsertedAt(BuildPath(c).value, BuildPath(c.(ids := Arr([]))).value,
                       |BuildPath(c.(ids := Arr([]), guids := Null, seoTerms := Null)).value|,
                       Implode(",", c.ids))
  {
    var front := ToStr(c.accountPid) + ToStr(c.feedPid) + IfTruthy(c.feedType)
                 + (if Truthy(c.feed) then "feed" else "");
    var back := GuidSegment(c) + ListSegment(c.seoTerms);
    InsertBetween(front, Implode(",", c.ids), back);
    assert front + Implode(",", c.ids) + GuidSegment(c) + ListSegment(c.seoTerms) == front + Implode(",", c.ids) + (GuidSegment(c) + ListSegment(c.seoTerms));
    assert front + "" == front;
    assert front + GuidSegment(c) + ListSegment(c.seoTerms) == front + (GuidSegment(c) + ListSegment(c.seoTerms));
    assert BuildPath(c.(ids := Arr([]), guids := Null, seoTerms := Null)).value == front + "" + "" + "";
    assert front + "" + "" + "" == front;
  }

  /** True GUIDs insert 'guid/', the account pid (or '-' when it is false)
      and the comma-joined GUIDs right after everything the earlier fields
      contribute; the numeric IDs then contribute nothing. */
  lemma GuidSegmentFollowsIds(c: Config)
    requires !Conflict(c) && Truthy(c.guids)
    ensures !Truthy(c.ids)
    ensures BuildPath(c).Ok? && BuildPath(c.(guids := Null)).Ok?
    ensures InsertedAt(BuildPath(c).value, BuildPath(c.(guids := Null)).value,
                       |BuildPath(c.(guids := Null, seoTerms := Null)).value|,
                       "guid/" + (if Truthy(c.accountPid) then ToStr(c.accountPid) else "-")
                       + Implode(",", c.guids))
  {
    var front := ToStr(c.accountPid) + ToStr(c.feedPid) + IfTruthy(c.feedType)
                 + (if Truthy(c.feed) then "feed" else "") + ListSegment(c.ids);
    InsertBetween(front, GuidSegment(c), ListSegment(c.seoTerms));
    assert BuildPath(c.(guids := Null)).value == front + "" + ListSegment(c.seoTerms);
    assert front + "" + ListSegment(c.seoTerms) == front + ListSegment(c.seoTerms);
    assert BuildPath(c.(guids := Null, seoTerms := Null)).value == front + "" + "";
    assert front + "" + "" == front;
  }

  /** True SEO terms come last: the path ends with their comma-joined list. */
  lemma SeoTermsComeLast(c: Config)
    requires !Conflict(c) && Truthy(c.seoTerms)
    ensures BuildPath(c).Ok? && BuildPath(c.(seoTerms := Null)).Ok?
    ensures BuildPath(c).value == BuildPath(c.(seoTerms := Null)).value + Implode(",", c.seoTerms)
  {
  }

  /** Fixed inputs and the paths they give. */
  lemma ExampleAllSegments()
    ensures BuildPath(Config(Str("acct1"), Str("feed1"), Str("type1"), Bool(true),
                             Arr([Str("1"), Str("2")]), Null, Arr([]), Arr([Str("termA")])))
            == Ok("acct1feed1type1feed1,2termA")
  {
    assert Implode(",", Arr([Str("1"), Str("2")])) == "1,2";
    assert Implode(",", Arr([Str("termA")])) == "termA";
    assert "acct1" + "feed1" + "type1" + "feed" + "1,2" + "" + "termA" == "acct1feed1type1feed1,2termA";
  }

  lemma ExampleGuids()
    ensures BuildPath(Config(Str("acct1"), Str("feed1"), Null, Bool(false), Arr([]), Null,
                             Arr([Str("g1"), Str("g2")]), Arr([])))
            == Ok("acct1feed1guid/acct1g1,g2")
  {
    assert Implode(",", Arr([Str("g1"), Str("g2")])) == "g1,g2";
    assert "acct1" + "feed1" + "" + "" + "" + ("guid/" + "acct1" + "g1,g2") + "" == "acct1feed1guid/acct1g1,g2";
  }

  lemma ExampleMissingAccount()
    ensures BuildPath(Config(Str(""), Str("feed1"), Null, Bool(false), Arr([]), Null,
                             Arr([Str("g1")]), Arr([])))
            == Ok("feed1guid/-g1")
  {
    assert Implode(",", Arr([Str("g1")])) == "g1";
    assert "" + "feed1" + "" + "" + "" + ("guid/" + "-" + "g1") + "" == "feed1guid/-g1";
  }

  /** '0' is a false string: as an account pid it still leads the path, yet
      the owner slot falls back to '-'. */
  lemma ExampleZeroAccount()
    ensures BuildPath(Config(Str("0"), Str("feed1"), Null, Bool(false), Arr([]), Null,
                             Arr([Int(7)]), Null))
            == Ok("0feed1guid/-7")
  {
    assert Implode(",", Arr([Int(7)])) == "7";
    assert "0" + "feed1" + "" + "" + "" + ("guid/" + "-" + "7") + "" == "0feed1guid/-7";
  }
}
