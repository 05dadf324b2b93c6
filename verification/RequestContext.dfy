/** The request context that caches what it has parsed (common/security/context.go). */
module RequestContext {
  import opened Common

  datatype UserInfo = UserInfo(userId: string)

  /** The parsed header; of its fields only those the getters read. */
  datatype Request = Request(shopSettings: string, userInfo: Option<UserInfo>, requestId: string)

  type Incoming = Request

  datatype Shop = Shop(settings: string)

  datatype AmazonUser = AmazonUser(account: string)

  /** The keys are plain strings, so the two context types share the first one. */
  datatype Key = RequestKey | ShopKey | OtherKey(name: string)

  datatype Val = OfRequest(request: Request) | OfShop(shop: Shop) | OfAmazon(user: AmazonUser) | Foreign(tag: nat)

  /** A context chain: incoming metadata at the root, one key and value per layer. */
  datatype Ctx = Root(metadata: Option<seq<string>>) | Layer(parent: Ctx, key: Key, val: Val)

  /** The libraries' decoding: percent-decoding, JSON, and the test for blank strings. */
  datatype Decoder = Decoder(
    unescape: string -> Option<string>,
    blank: string -> bool,
    request: string -> Option<Request>,
    shop: string -> Option<Shop>,
    amazon: string -> Option<AmazonUser>)

  /** What a getter gives: a value, nil, or a panic of the unchecked type assertion. */
  datatype Got<+T> = Panics | Nil | Got(value: T)

  function Value(ctx: Ctx, key: Key): Option<Val> {
    match ctx
    case Root(_) => None
    case Layer(parent, k, v) => if k == key then Some(v) else Value(parent, key)
  }

  /** The header values under the request key in the incoming metadata, if there is any. */
  function Metadata(ctx: Ctx): Option<seq<string>> {
    match ctx
    case Root(md) => md
    case Layer(parent, _, _) => Metadata(parent)
  }

  function Header(d: Decoder, ctx: Ctx): Option<string> {
    var md := Metadata(ctx);
    if md.None? || md.value == [] then None else d.unescape(md.value[0])
  }

  function GetRequestContext(d: Decoder, ctx: Ctx): (Got<Request>, Ctx) {
    var cached := Value(ctx, RequestKey);
    if cached.Some? then ((if cached.value.OfRequest? then Got(cached.value.request) else Panics), ctx)
    else
      var header := Header(d, ctx);
      if header.None? || d.blank(header.value) then (Nil, ctx)
      else
        var r := d.request(header.value);
        if r.None? then (Nil, ctx) else (Got(r.value), Layer(ctx, RequestKey, OfRequest(r.value)))
  }

  function GetShopSettings(d: Decoder, ctx: Ctx): (Got<Shop>, Ctx) {
    var cached := Value(ctx, ShopKey);
    if cached.Some? then ((if cached.value.OfShop? then Got(cached.value.shop) else Panics), ctx)
    else
      var (request, ctx') := GetRequestContext(d, ctx);
      match request
      case Panics => (Panics, ctx')
      case Nil => (Nil, ctx')
      case Got(r) =>
        if d.blank(r.shopSettings) then (Nil, ctx')
        else
          var shop := d.shop(r.shopSettings);
          if shop.None? then (Nil, ctx') else (Got(shop.value), Layer(ctx', ShopKey, OfShop(shop.value)))
  }

  function GetAmazonUser(d: Decoder, ctx: Ctx): (Got<AmazonUser>, Ctx) {
    var cached := Value(ctx, RequestKey);
    if cached.Some? then ((if cached.value.OfAmazon? then Got(cached.value.user) else Panics), ctx)
    else
      var header := Header(d, ctx);
      if header.None? || header.value == "" then (Nil, ctx)
      else
        var u := d.amazon(header.value);
        if u.None? then (Nil, ctx) else (Got(u.value), Layer(ctx, RequestKey, OfAmazon(u.value)))
  }

  datatype Getter = TheRequest | TheRequestId | TheShop | TheUser

  datatype Answer =
    | Request(request: Got<Request>)
    | RequestId(id: Got<string>)
    | ShopSettings(shop: Got<Shop>)
    | LoginUser(user: Got<UserInfo>)

  function Ask(d: Decoder, ctx: Ctx, g: Getter): (Answer, Ctx) {
    match g
    case TheRequest =>
      var (r, ctx') := GetRequestContext(d, ctx);
      (Answer.Request(r), ctx')
    case TheRequestId =>
      var (r, ctx') := GetRequestContext(d, ctx);
      (RequestId(match r case Panics => Panics case Nil => Got("") case Got(v) => Got(v.requestId)), ctx')
    case TheShop =>
      var (s, ctx') := GetShopSettings(d, ctx);
      (ShopSettings(s), ctx')
    case TheUser =>
      var (r, ctx') := GetRequestContext(d, ctx);
      (LoginUser(match r
                 case Panics => Panics
                 case Nil => Nil
                 case Got(v) => if v.userInfo.Some? then Got(v.userInfo.value) else Nil), ctx')
  }

  /** Two contexts that no getter and no other reader can tell apart. */
  ghost predicate Alike(d: Decoder, a: Ctx, b: Ctx) {
    && (forall g :: Ask(d, a, g).0 == Ask(d, b, g).0)
    && (forall n :: Value(a, OtherKey(n)) == Value(b, OtherKey(n)))
    && Metadata(a) == Metadata(b)
  }

  /** Asking once leaves every later answer as it was, this key's and every other's. */
  lemma AskingChangesNoAnswer(d: Decoder, ctx: Ctx, g: Getter)
    ensures Alike(d, Ask(d, ctx, g).1, ctx)
  {
    var ctx' := Ask(d, ctx, g).1;
    forall h ensures Ask(d, ctx', h).0 == Ask(d, ctx, h).0 {
      var once := GetRequestContext(d, ctx).1;
      assert GetRequestContext(d, once).0 == GetRequestContext(d, ctx).0;
      assert GetShopSettings(d, once).0 == GetShopSettings(d, ctx).0;
    }
  }

  /** The answers a fresh context over the same base gives to each question. */
  function FreshAnswers(d: Decoder, base: Ctx, gs: seq<Getter>): seq<Answer> {
    seq(|gs|, i requires 0 <= i < |gs| => Ask(d, base, gs[i]).0)
  }

  class GiimallContext {
    const decoder: Decoder
    var ctx: Ctx

    constructor (decoder: Decoder, ctx: Ctx)
      ensures this.decoder == decoder && this.ctx == ctx
    {
      this.decoder, this.ctx := decoder, ctx;
    }

    method Request() returns (r: Got<Request>)
      modifies this
      ensures (r, ctx) == GetRequestContext(decoder, old(ctx))
    {
      var cached := Value(ctx, RequestKey);
      if cached.Some? {
        return if cached.value.OfRequest? then Got(cached.value.request) else Panics;
      }
      var md := Metadata(ctx);
      if md.None? || md.value == [] {
        return Nil;
      }
      var text := decoder.unescape(md.value[0]);
      if text.None? || decoder.blank(text.value) {
        return Nil;
      }
      var parsed := decoder.request(text.value);
      if parsed.None? {
        return Nil;
      }
      ctx := Layer(ctx, RequestKey, OfRequest(parsed.value));
      return Got(parsed.value);
    }

    method ShopSettings() returns (s: Got<Shop>)
      modifies this
      ensures (s, ctx) == GetShopSettings(decoder, old(ctx))
    {
      var cached := Value(ctx, ShopKey);
      if cached.Some? {
        return if cached.value.OfShop? then Got(cached.value.shop) else Panics;
      }
      var request := Request();
      if !request.Got? {
        return if request.Nil? then Nil else Panics;
      }
      if decoder.blank(request.value.shopSettings) {
        return Nil;
      }
      var parsed := decoder.shop(request.value.shopSettings);
      if parsed.None? {
        return Nil;
      }
      ctx := Layer(ctx, ShopKey, OfShop(parsed.value));
      return Got(parsed.value);
    }

    method Answers(g: Getter) returns (a: Answer)
      modifies this
      ensures (a, ctx) == Ask(decoder, old(ctx), g)
    {
      match g
      case TheShop =>
        var s := ShopSettings();
        a := Answer.ShopSettings(s);
      case TheRequest =>
        var r := Request();
        a := Answer.Request(r);
      case TheRequestId =>
        var r := Request();
        a := RequestId(match r case Panics => Panics case Nil => Got("") case Got(v) => Got(v.requestId));
      case TheUser =>
        var r := Request();
        a := LoginUser(match r
                       case Panics => Panics
                       case Nil => Nil
                       case Got(v) => if v.userInfo.Some? then Got(v.userInfo.value) else Nil);
    }

    /** However often and in whatever order one context is asked, it answers like fresh ones. */
    method AnswerAll(gs: seq<Getter>) returns (answers: seq<Answer>)
      modifies this
      ensures answers == FreshAnswers(decoder, old(ctx), gs)
      ensures Alike(decoder, ctx, old(ctx))
    {
      answers := [];
      for i := 0 to |gs|
        invariant |answers| == i && forall j :: 0 <= j < i ==> answers[j] == Ask(decoder, old(ctx), gs[j]).0
        invariant Alike(decoder, ctx, old(ctx))
      {
        AskingChangesNoAnswer(decoder, ctx, gs[i]);
        var a := Answers(gs[i]);
        answers := answers + [a];
      }
    }
  }

  class AmazonContext {
    const decoder: Decoder
    var ctx: Ctx

    constructor (decoder: Decoder, ctx: Ctx)
      ensures this.decoder == decoder && this.ctx == ctx
    {
      this.decoder, this.ctx := decoder, ctx;
    }

    method LoginUser() returns (user: Got<AmazonUser>)
      modifies this
      ensures (user, ctx) == GetAmazonUser(decoder, old(ctx))
    {
      var cached := Value(ctx, RequestKey);
      if cached.Some? {
        return if cached.value.OfAmazon? then Got(cached.value.user) else Panics;
      }
      var md := Metadata(ctx);
      if md.None? || md.value == [] {
        return Nil;
      }
      var text := decoder.unescape(md.value[0]);
      if text.None? || |text.value| == 0 {
        return Nil;
      }
      var parsed := decoder.amazon(text.value);
      if parsed.None? {
        return Nil;
      }
      ctx := Layer(ctx, RequestKey, OfAmazon(parsed.value));
      return Got(parsed.value);
    }
  }

  function Context(d: Decoder, ctx: Ctx, gs: seq<Getter>): Ctx {
    if gs == [] then ctx else Ask(d, Context(d, ctx, gs[..|gs| - 1]), gs[|gs| - 1]).1
  }

  /** The cached context agrees with plain parsing after any questions. */
  lemma {:induction false} CachedAgreesWithFresh(d: Decoder, base: Ctx, gs: seq<Getter>)
    ensures Alike(d, Context(d, base, gs), base)
  {
    if gs != [] {
      CachedAgreesWithFresh(d, base, gs[..|gs| - 1]);
      AskingChangesNoAnswer(d, Context(d, base, gs[..|gs| - 1]), gs[|gs| - 1]);
    }
  }

  // ---------------------------------------------------------------------------------------
  // What the getters answer
  // ---------------------------------------------------------------------------------------

  predicate Uncached(ctx: Ctx) {
    Value(ctx, RequestKey).None? && Value(ctx, ShopKey).None?
  }

  /** What the four getters answer when the request is `r`. */
  predicate AnswersFrom(d: Decoder, ctx: Ctx, r: Incoming) {
    && Ask(d, ctx, TheRequest).0 == Answer.Request(Got(r))
    && Ask(d, ctx, TheRequestId).0 == RequestId(Got(r.requestId))
    && Ask(d, ctx, TheUser).0 == LoginUser(if r.userInfo.Some? then Got(r.userInfo.value) else Nil)
    && Ask(d, ctx, TheShop).0 ==
      ShopSettings(if d.blank(r.shopSettings) || d.shop(r.shopSettings).None? then Nil
                   else Got(d.shop(r.shopSettings).value))
  }

  /** The request that the first header value decodes to, if it is there, not blank and well-formed. */
  predicate Carries(d: Decoder, metadata: Option<seq<string>>, r: Incoming) {
    && metadata.Some? && metadata.value != []
    && d.unescape(metadata.value[0]).Some? && !d.blank(d.unescape(metadata.value[0]).value)
    && d.request(d.unescape(metadata.value[0]).value) == Some(r)
  }

  predicate CarriesNothing(d: Decoder, metadata: Option<seq<string>>) {
    || metadata.None? || metadata.value == [] || d.unescape(metadata.value[0]).None?
    || d.blank(d.unescape(metadata.value[0]).value)
    || d.request(d.unescape(metadata.value[0]).value).None?
  }

  /** Over an uncached chain, after any getter calls, the getters answer what the header says. */
  lemma AnswersWhatTheHeaderSays(d: Decoder, base: Ctx, gs: seq<Getter>, r: Incoming)
    requires Uncached(base) && Carries(d, Metadata(base), r)
    ensures AnswersFrom(d, Context(d, base, gs), r)
  {
    CachedAgreesWithFresh(d, base, gs);
  }

  /** Without a usable header they answer nil, and the empty id. */
  lemma AnswersNothing(d: Decoder, base: Ctx, gs: seq<Getter>)
    requires Uncached(base) && CarriesNothing(d, Metadata(base))
    ensures var ctx := Context(d, base, gs);
      && Ask(d, ctx, TheRequest).0 == Answer.Request(Nil) && Ask(d, ctx, TheRequestId).0 == RequestId(Got(""))
      && Ask(d, ctx, TheUser).0 == LoginUser(Nil) && Ask(d, ctx, TheShop).0 == ShopSettings(Nil)
  {
    CachedAgreesWithFresh(d, base, gs);
  }

  /** A request that is cached already is what they answer from, whatever the header says. */
  lemma AnswersWhatIsCached(d: Decoder, base: Ctx, gs: seq<Getter>, r: Incoming)
    requires Value(base, RequestKey) == Some(OfRequest(r)) && Value(base, ShopKey).None?
    ensures AnswersFrom(d, Context(d, base, gs), r)
  {
    CachedAgreesWithFresh(d, base, gs);
  }

  /** And cached shop settings are answered as they are. */
  lemma AnswersTheCachedShop(d: Decoder, base: Ctx, gs: seq<Getter>, shop: Shop)
    requires Value(base, ShopKey) == Some(OfShop(shop))
    ensures Ask(d, Context(d, base, gs), TheShop).0 == ShopSettings(Got(shop))
  {
    CachedAgreesWithFresh(d, base, gs);
  }

  /** The second context type's getter: the user the first header value decodes to, and else nil. */
  lemma AmazonUserIsTheHeaders(d: Decoder, base: Ctx)
    requires Value(base, RequestKey).None?
    ensures var md := Metadata(base);
      GetAmazonUser(d, base).0 ==
        if md.None? || md.value == [] || d.unescape(md.value[0]).None? || d.unescape(md.value[0]).value == ""
          || d.amazon(d.unescape(md.value[0]).value).None?
        then Nil else Got(d.amazon(d.unescape(md.value[0]).value).value)
  {
  }

  /** What a getter has parsed is in the chain afterwards, and asked again it answers from there and adds no layer. */
  lemma ParsesOnce(d: Decoder, ctx: Ctx)
    ensures var (r, ctx') := GetRequestContext(d, ctx);
      r.Got? ==> Value(ctx', RequestKey) == Some(OfRequest(r.value)) && GetRequestContext(d, ctx') == (r, ctx')
    ensures var (shop, ctx') := GetShopSettings(d, ctx);
      shop.Got? ==> Value(ctx', ShopKey) == Some(OfShop(shop.value)) && GetShopSettings(d, ctx') == (shop, ctx')
  {
  }

  /** The second context type's one getter parses once: asked again it gives the same user and adds no layer. */
  lemma AmazonUserIsCached(d: Decoder, ctx: Ctx)
    ensures var (user, ctx') := GetAmazonUser(d, ctx);
      && (user.Got? ==> GetAmazonUser(d, ctx') == (user, ctx') && Value(ctx', RequestKey) == Some(OfAmazon(user.value)))
      && (!user.Got? ==> ctx' == ctx)
      && (forall key :: key != RequestKey ==> Value(ctx', key) == Value(ctx, key))
  {
  }

  /** The two context types cache under one key: over a context the other has cached in, a getter panics. */
  lemma SharedKeyPanics(d: Decoder, ctx: Ctx)
    requires GetAmazonUser(d, ctx).0.Got?
    ensures GetRequestContext(d, GetAmazonUser(d, ctx).1).0.Panics?
    ensures GetRequestContext(d, ctx).0.Got? ==> GetAmazonUser(d, GetRequestContext(d, ctx).1).0.Panics?
  {
  }

  // ---------------------------------------------------------------------------------------
  // Both context types over one chain
  // ---------------------------------------------------------------------------------------

  /** A getter call through one of the two context types. */
  datatype Reader = ByGiimall(g: Getter) | ByAmazon

  predicate Panicked(a: Answer) {
    match a
    case Request(r) => r.Panics?
    case RequestId(id) => id.Panics?
    case ShopSettings(s) => s.Panics?
    case LoginUser(u) => u.Panics?
  }

  /** Whether the call panics, and the chain after it. */
  function Read(d: Decoder, ctx: Ctx, r: Reader): (bool, Ctx) {
    match r
    case ByAmazon => (GetAmazonUser(d, ctx).0.Panics?, GetAmazonUser(d, ctx).1)
    case ByGiimall(g) => (Panicked(Ask(d, ctx, g).0), Ask(d, ctx, g).1)
  }

  function ReadAll(d: Decoder, base: Ctx, rs: seq<Reader>): Ctx {
    if rs == [] then base else Read(d, ReadAll(d, base, rs[..|rs| - 1]), rs[|rs| - 1]).1
  }

  /** The caller's type can parse the header. */
  predicate Parses(d: Decoder, base: Ctx, r: Reader) {
    if r.ByAmazon? then GetAmazonUser(d, base).0.Got? else GetRequestContext(d, base).0.Got?
  }

  /** Whose value the shared key holds: that of the first caller that could parse the header. */
  function Owner(d: Decoder, base: Ctx, rs: seq<Reader>): Option<Reader> {
    if rs == [] then None
    else
      var before := Owner(d, base, rs[..|rs| - 1]);
      if before.Some? then before else if Parses(d, base, rs[|rs| - 1]) then Some(rs[|rs| - 1]) else None
  }

  predicate Holds(ctx: Ctx, owner: Option<Reader>) {
    match owner
    case None => Uncached(ctx)
    case Some(ByAmazon) =>
      && Value(ctx, RequestKey).Some? && Value(ctx, RequestKey).value.OfAmazon? && Value(ctx, ShopKey).None?
    case Some(ByGiimall(_)) =>
      && Value(ctx, RequestKey).Some? && Value(ctx, RequestKey).value.OfRequest?
      && (Value(ctx, ShopKey).Some? ==> Value(ctx, ShopKey).value.OfShop?)
  }

  lemma {:induction false} OwnerHolds(d: Decoder, base: Ctx, rs: seq<Reader>)
    requires Uncached(base)
    ensures Holds(ReadAll(d, base, rs), Owner(d, base, rs))
    ensures Metadata(ReadAll(d, base, rs)) == Metadata(base)
  {
    if rs != [] {
      OwnerHolds(d, base, rs[..|rs| - 1]);
    }
  }

  /**
   Over a fresh chain a call panics if and only if the first caller that could parse the header
   was of the other context type.
   */
  lemma PanicsExactlyAfterTheOtherType(d: Decoder, base: Ctx, rs: seq<Reader>, r: Reader)
    requires Uncached(base)
    ensures Read(d, ReadAll(d, base, rs), r).0 <==>
      Owner(d, base, rs).Some? && Owner(d, base, rs).value.ByAmazon? != r.ByAmazon?
  {
    OwnerHolds(d, base, rs);
  }
}
