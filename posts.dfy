/**
 * The post normaliser: each element of the archive's post collection,
 * `{ tweet: t }`, becomes one flat record of fourteen fields. The derived
 * fields are written with the JavaScript operators the normaliser uses
 * (optional chaining, `?? 0`, `> 0` on a possibly undefined length, string
 * truthiness), so that each field's contract states in plain terms what
 * that combination of operators yields.
 */
module Posts {
  import opened Wrappers
  import opened Markup

  /** One element of an entities sub-collection; only how many there are is used. */
  datatype EntityItem = EntityItem(text: string)

  /** The four sub-collections of a post's `entities`. */
  datatype EntityKind = Media | Hashtags | UserMentions | Urls

  /** A post's `entities`; any sub-collection may be absent. */
  datatype Entities = Entities(
    media: Option<seq<EntityItem>>,
    hashtags: Option<seq<EntityItem>>,
    userMentions: Option<seq<EntityItem>>,
    urls: Option<seq<EntityItem>>)
  {
    /** The sub-collection of the given kind: `entities.<kind>`. */
    function Of(kind: EntityKind): Option<seq<EntityItem>> {
      match kind
      case Media => media
      case Hashtags => hashtags
      case UserMentions => userMentions
      case Urls => urls
    }
  }

  /** A post as the archive stores it; absent and `null` fields are both `None`. */
  datatype RawPost = RawPost(
    id: string,
    favoriteCount: string,
    retweetCount: string,
    createdAt: string,
    inReplyToUserId: Option<string>,
    fullText: Option<string>,
    entities: Option<Entities>,
    source: Option<string>)

  /** An element of the post collection, `{ tweet: … }`; the `tweet` key may be missing. */
  datatype ArchiveEntry = ArchiveEntry(tweet: Option<RawPost>)

  /** The archive owner; only `accountId` is used by the normaliser. */
  datatype Account = Account(accountId: string, username: string)

  /** `in_reply_to_user_id` of a flat record: the id text, or the number 0. */
  datatype ReplyField = UserId(id: string) | Zero

  /** The flat record written for one post. */
  datatype FlatPost = FlatPost(
    id: string,
    favoriteCount: string,
    retweetCount: string,
    createdAt: string,
    isReply: bool,
    inReplyToUserId: ReplyField,
    isSelfReply: bool,
    retweet: bool,
    hasMedia: bool,
    hashtags: nat,
    userMentions: nat,
    urls: nat,
    source: string,
    fullText: Option<string>)

  // ---------------------------------------------------------------------
  // The JavaScript operators the normaliser is written with

  /** `o?.length`: undefined when `o` is. */
  function LengthOf<T>(o: Option<seq<T>>): Option<nat> {
    match o
    case None => None
    case Some(xs) => Some(|xs|)
  }

  /** `x > 0`: an undefined `x` converts to NaN, and NaN compares false. */
  predicate GreaterThanZero(x: Option<nat>) {
    match x
    case None => false
    case Some(n) => n > 0
  }

  /** `x ?? d`. */
  function OrElse<T>(x: Option<T>, d: T): T {
    match x
    case None => d
    case Some(v) => v
  }

  /** A string in a condition: undefined, null and "" are falsy. */
  predicate Truthy(s: Option<string>) {
    s.Some? && s.value != ""
  }

  /** `String.prototype.startsWith`. */
  predicate StartsWith(s: string, prefix: string) {
    |prefix| <= |s| && s[..|prefix|] == prefix
  }

  /** `t.entities?.<kind>`. */
  function SubCollection(t: RawPost, kind: EntityKind): Option<seq<EntityItem>> {
    match t.entities
    case None => None
    case Some(e) => e.Of(kind)
  }

  // ---------------------------------------------------------------------
  // The fields of the flat record

  /** `is_reply`: the post answers someone exactly when it names a non-empty user id. */
  function IsReply(t: RawPost): (b: bool)
    ensures b <==> t.inReplyToUserId.Some? && |t.inReplyToUserId.value| > 0
  {
    GreaterThanZero(LengthOf(t.inReplyToUserId))
  }

  /** `in_reply_to_user_id`: the id the post answers, or 0; the two cases never collide. */
  function ReplyTarget(t: RawPost): (r: ReplyField)
    ensures r == Zero <==> t.inReplyToUserId.None?
    ensures (match r case UserId(u) => Some(u) case Zero => None) == t.inReplyToUserId
  {
    OrElse(if t.inReplyToUserId.Some? then Some(UserId(t.inReplyToUserId.value)) else None, Zero)
  }

  /** `is_self_reply`: the post answers the account owner; never when it answers no one. */
  function IsSelfReply(t: RawPost, account: Account): (b: bool)
    ensures b <==> t.inReplyToUserId.Some? && t.inReplyToUserId.value == account.accountId
  {
    t.inReplyToUserId == Some(account.accountId)
  }

  /** `retweet`: the text starts with the three characters "RT " (case-sensitive). */
  function IsRetweet(t: RawPost): (b: bool)
    ensures b <==> t.fullText.Some? && |t.fullText.value| >= 3
                   && t.fullText.value[0] == 'R' && t.fullText.value[1] == 'T' && t.fullText.value[2] == ' '
  {
    if Truthy(t.fullText) then StartsWith(t.fullText.value, "RT ") else false
  }

  /** `has_media`: the post has a non-empty media sub-collection. */
  function HasMedia(t: RawPost): (b: bool)
    ensures b <==> t.entities.Some? && t.entities.value.media.Some? && |t.entities.value.media.value| > 0
  {
    GreaterThanZero(LengthOf(SubCollection(t, Media)))
  }

  /** `hashtags`, `user_mentions`, `urls`: the size of the sub-collection, 0 when it or `entities` is absent. */
  function EntityCount(t: RawPost, kind: EntityKind): (n: nat)
    ensures t.entities.None? ==> n == 0
    ensures t.entities.Some? && t.entities.value.Of(kind).None? ==> n == 0
    ensures t.entities.Some? && t.entities.value.Of(kind).Some? ==> n == |t.entities.value.Of(kind).value|
  {
    OrElse(LengthOf(SubCollection(t, kind)), 0)
  }

  /** `source`: "" when absent, otherwise the text with its tags stripped, tag-free and stable under stripping. */
  function CleanSource(t: RawPost): (r: string)
    ensures t.source.None? ==> r == ""
    ensures t.source.Some? ==> r == StripTags(t.source.value)
    ensures NoTag(r)
    ensures StripTags(r) == r
  {
    if Truthy(t.source) then
      StripTagsLeavesNoTag(t.source.value);
      StripTagsIdempotent(t.source.value);
      StripTags(t.source.value)
    else ""
  }

  /** The flat record of one post. */
  function FlattenPost(t: RawPost, account: Account): (r: FlatPost)
    // copied unchanged
    ensures r.id == t.id && r.favoriteCount == t.favoriteCount && r.retweetCount == t.retweetCount
    ensures r.createdAt == t.createdAt && r.fullText == t.fullText
    // how the derived fields hang together
    ensures r.isReply ==> r.inReplyToUserId.UserId? && r.inReplyToUserId.id != ""
    ensures r.inReplyToUserId == Zero ==> !r.isReply && !r.isSelfReply
    ensures r.isSelfReply <==> r.inReplyToUserId == UserId(account.accountId)
    ensures r.isSelfReply && account.accountId != "" ==> r.isReply
    ensures r.retweet ==> r.fullText.Some? && StartsWith(r.fullText.value, "RT ")
    ensures NoTag(r.source)
    // each derived field is the value its own rule gives
    ensures r.isReply == IsReply(t) && r.inReplyToUserId == ReplyTarget(t) && r.isSelfReply == IsSelfReply(t, account)
    ensures r.retweet == IsRetweet(t) && r.hasMedia == HasMedia(t) && r.source == CleanSource(t)
    ensures r.hashtags == EntityCount(t, Hashtags) && r.userMentions == EntityCount(t, UserMentions)
            && r.urls == EntityCount(t, Urls)
  {
    FlatPost(
      id := t.id,
      favoriteCount := t.favoriteCount,
      retweetCount := t.retweetCount,
      createdAt := t.createdAt,
      isReply := IsReply(t),
      inReplyToUserId := ReplyTarget(t),
      isSelfReply := IsSelfReply(t, account),
      retweet := IsRetweet(t),
      hasMedia := HasMedia(t),
      hashtags := EntityCount(t, Hashtags),
      userMentions := EntityCount(t, UserMentions),
      urls := EntityCount(t, Urls),
      source := CleanSource(t),
      fullText := t.fullText)
  }

  /**
   * `tweets.map(({ tweet: t }) => …)`: the flat records in input order, or
   * None when some element has no `tweet` (reading a field of undefined throws).
   */
  function FlattenAll(entries: seq<ArchiveEntry>, account: Account): (r: Option<seq<FlatPost>>)
    ensures r.Some? <==> forall i :: 0 <= i < |entries| ==> entries[i].tweet.Some?
    ensures r.Some? ==> |r.value| == |entries|
    ensures r.Some? ==> forall i :: 0 <= i < |entries| ==>
              entries[i].tweet.Some? && r.value[i] == FlattenPost(entries[i].tweet.value, account)
  {
    if entries == [] then Some([])
    else
      match entries[0].tweet
      case None => None
      case Some(t) =>
        match FlattenAll(entries[1..], account)
        case None => None
        case Some(rest) => Some([FlattenPost(t, account)] + rest)
  }

  /** Normalising a batch splits over concatenation: each part is mapped on its own, in order. */
  lemma {:induction false} FlattenAllAppend(xs: seq<ArchiveEntry>, ys: seq<ArchiveEntry>, account: Account)
    ensures FlattenAll(xs + ys, account) ==
            match (FlattenAll(xs, account), FlattenAll(ys, account))
            case (Some(a), Some(b)) => Some(a + b)
            case _ => None
  {
    if xs == [] {
      assert xs + ys == ys;
      if FlattenAll(ys, account).Some? {
        assert [] + FlattenAll(ys, account).value == FlattenAll(ys, account).value;
      }
    } else {
      assert (xs + ys)[0] == xs[0];
      assert (xs + ys)[1..] == xs[1..] + ys;
      FlattenAllAppend(xs[1..], ys, account);
      var a, b := FlattenAll(xs[1..], account), FlattenAll(ys, account);
      if xs[0].tweet.Some? && a.Some? && b.Some? {
        var head := [FlattenPost(xs[0].tweet.value, account)];
        assert head + (a.value + b.value) == (head + a.value) + b.value;
      }
    }
  }
}
