/**
  The search for a Codex credential in a JSON document of unknown shape.  The
  order in which the fields of an object are visited is arbitrary.
*/
module CredentialSearch {
  import opened Prelude

  /** A text also carries what decoding it as a document gives, if that succeeds. */
  datatype Json = Null | Scalar | Text(text: string, nested: Option<Json>) | List(items: seq<Json>) | Object(fields: map<string, Json>)

  type Fields = map<string, Json>

  datatype Claims = Claims(accountId: string)

  /** Decoding of JSON web tokens, which fails on the empty text. */
  type Decoder = d: string -> Option<Claims> | d("") == None witness (s: string) => None

  datatype Credential = Credential(access: string, refresh: string, idToken: string, accountId: string, email: string, plan: string)

  /** An object with a token, and the objects around it from the outside in. */
  datatype Place = Place(node: Fields, ancestors: seq<Fields>)

  datatype Candidate = Candidate(place: Place, credential: Credential, expires: Option<Json>, score: int)

  const MAX_DEPTH := 10

  const ACCESS := ["access_token", "accessToken", "access"]
  const REFRESH := ["refresh_token", "refreshToken", "refresh"]
  const ID_TOKEN := ["id_token", "idToken"]
  const ACCOUNT_ID := ["account_id", "accountId", "chatgpt_account_id", "chatgptAccountId"]
  const EMAIL := ["email", "account_email", "accountEmail"]
  const PLAN := ["plan_type", "planType", "plan"]
  const EXPIRES := ["expires_at", "expiresAt", "expired", "expiry"]
  const PROVIDER := ["type", "provider", "provider_id", "providerId"]
  const METADATA := ["account", "profile", "user"]

  // ----- looking up fields -----

  function TextAt(o: Fields, key: string): string {
    if key in o && o[key].Text? then o[key].text else ""
  }

  /** The first non-empty text under one of the keys, or the empty text. */
  function FirstText(o: Fields, keys: seq<string>): (r: string)
    ensures r != "" ==> exists key <- keys :: TextAt(o, key) == r
    ensures r == "" <==> forall key <- keys :: TextAt(o, key) == ""
  {
    if keys == [] then "" else if TextAt(o, keys[0]) != "" then TextAt(o, keys[0]) else FirstText(o, keys[1..])
  }

  /** Objects come before keys: the nearest object with any of the keys decides. */
  function FirstStringInMaps(maps: seq<Fields>, keys: seq<string>): string {
    if maps == [] then ""
    else if FirstText(maps[0], keys) != "" then FirstText(maps[0], keys)
    else FirstStringInMaps(maps[1..], keys)
  }

  /** Object i is the first one with a text under any of the keys. */
  ghost predicate FirstWith(maps: seq<Fields>, keys: seq<string>, i: nat, text: string) {
    && i < |maps| && FirstText(maps[i], keys) == text && text != ""
    && forall j | 0 <= j < i :: FirstText(maps[j], keys) == ""
  }

  lemma {:induction false} FirstStringIsFirst(maps: seq<Fields>, keys: seq<string>)
    ensures FirstStringInMaps(maps, keys) == "" <==> forall o <- maps :: FirstText(o, keys) == ""
    ensures FirstStringInMaps(maps, keys) != "" ==> exists i: nat :: FirstWith(maps, keys, i, FirstStringInMaps(maps, keys))
  {
    hide FirstText;
    if maps != [] {
      var rest := maps[1..];
      FirstStringIsFirst(rest, keys);
      assert maps[0] in maps && forall o :: o in maps <==> o == maps[0] || o in rest;
      if FirstText(maps[0], keys) != "" {
        assert FirstWith(maps, keys, 0, FirstText(maps[0], keys));
      } else {
        FirstWithLater(maps, keys, FirstStringInMaps(rest, keys));
      }
    }
  }

  lemma FirstWithLater(maps: seq<Fields>, keys: seq<string>, text: string)
    requires maps != [] && FirstText(maps[0], keys) == ""
    ensures (exists i: nat :: FirstWith(maps[1..], keys, i, text)) ==> exists i: nat :: FirstWith(maps, keys, i, text)
  {
    hide FirstText;
    if i: nat :| FirstWith(maps[1..], keys, i, text) {
      assert forall j | 0 < j <= i :: maps[j] == maps[1..][j - 1];
      assert FirstWith(maps, keys, i + 1, text);
    }
  }

  function FirstValue(o: Fields, keys: seq<string>): Option<Json> {
    if keys == [] then None
    else if keys[0] in o && o[keys[0]] != Null then Some(o[keys[0]])
    else FirstValue(o, keys[1..])
  }

  function FirstValueInMaps(maps: seq<Fields>, keys: seq<string>): Option<Json> {
    if maps == [] then None
    else if FirstValue(maps[0], keys).Some? then FirstValue(maps[0], keys)
    else FirstValueInMaps(maps[1..], keys)
  }

  function Reversed(maps: seq<Fields>): (r: seq<Fields>)
    ensures |r| == |maps| && forall i :: 0 <= i < |maps| ==> r[i] == maps[|maps| - 1 - i]
  {
    if maps == [] then [] else [maps[|maps| - 1]] + Reversed(maps[..|maps| - 1])
  }

  // ----- where a candidate's fields may come from -----

  /** The objects under the metadata keys of one object. */
  function MetadataOf(o: Fields, keys: seq<string>): (r: seq<Fields>)
    ensures forall m <- r :: exists key <- keys :: key in o && o[key] == Object(m)
  {
    if keys == [] then []
    else if keys[0] in o && o[keys[0]].Object? then [o[keys[0]].fields] + MetadataOf(o, keys[1..])
    else MetadataOf(o, keys[1..])
  }

  /** An ancestor, or an object directly under one of its metadata keys. */
  ghost predicate Surrounds(ancestors: seq<Fields>, m: Fields) {
    m in ancestors || exists a <- ancestors, key <- METADATA :: key in a && a[key] == Object(m)
  }

  /** The ancestors from the inside out, each followed by its metadata. */
  function Around(ancestors: seq<Fields>): (r: seq<Fields>)
    ensures forall m <- r :: Surrounds(ancestors, m)
    ensures forall a <- ancestors :: a in r
  {
    if ancestors == [] then [] else
      var inner, before := ancestors[|ancestors| - 1], ancestors[..|ancestors| - 1];
      assert forall a <- before :: a in ancestors;
      var metadata, outer := MetadataOf(inner, METADATA), Around(before);
      assert forall m <- outer :: Surrounds(ancestors, m) by {
        forall m <- outer ensures Surrounds(ancestors, m) { assert Surrounds(before, m); }
      }
      [inner] + metadata + outer
  }

  function ContextMaps(place: Place): (r: seq<Fields>)
    ensures r != [] && r[0] == place.node
    ensures forall m <- r :: m == place.node || Surrounds(place.ancestors, m)
  {
    [place.node] + Around(place.ancestors)
  }

  function CredentialAt(place: Place): Credential {
    var maps := ContextMaps(place);
    Credential(FirstStringInMaps(maps, ACCESS), FirstStringInMaps(maps, REFRESH), FirstStringInMaps(maps, ID_TOKEN),
               FirstStringInMaps(maps, ACCOUNT_ID), FirstStringInMaps(maps, EMAIL), FirstStringInMaps(maps, PLAN))
  }

  function HasToken(o: Fields): bool {
    FirstText(o, ACCESS + REFRESH) != ""
  }

  /** A text found in a place comes from the object itself or from what surrounds it. */
  ghost predicate ComesFrom(place: Place, keys: seq<string>, text: string) {
    text != "" ==> exists m: Fields, key <- keys :: (m == place.node || Surrounds(place.ancestors, m)) && TextAt(m, key) == text
  }

  lemma TextComesFrom(place: Place, keys: seq<string>)
    ensures ComesFrom(place, keys, FirstStringInMaps(ContextMaps(place), keys))
  {
    hide FirstText, ContextMaps, Surrounds, TextAt, FirstStringInMaps;
    var maps := ContextMaps(place);
    var text := FirstStringInMaps(maps, keys);
    FirstStringIsFirst(maps, keys);
    if text != "" {
      var i: nat :| FirstWith(maps, keys, i, text);
      var key :| key in keys && TextAt(maps[i], key) == text;
      assert maps[i] in maps;
    }
  }

  /** Every field of a credential comes from its object, an ancestor of it, or the metadata of one. */
  lemma CredentialComesFrom(place: Place)
    ensures var c := CredentialAt(place);
            && ComesFrom(place, ACCESS, c.access) && ComesFrom(place, REFRESH, c.refresh) && ComesFrom(place, ID_TOKEN, c.idToken)
            && ComesFrom(place, ACCOUNT_ID, c.accountId) && ComesFrom(place, EMAIL, c.email) && ComesFrom(place, PLAN, c.plan)
  {
    hide ComesFrom, ContextMaps, FirstStringInMaps;
    TextComesFrom(place, ACCESS);
    TextComesFrom(place, REFRESH);
    TextComesFrom(place, ID_TOKEN);
    TextComesFrom(place, ACCOUNT_ID);
    TextComesFrom(place, EMAIL);
    TextComesFrom(place, PLAN);
  }

  /** An object with a token of its own contributes that token. */
  lemma OwnTokenIsUsed(place: Place)
    requires HasToken(place.node)
    ensures CredentialAt(place).access != "" || CredentialAt(place).refresh != ""
    ensures FirstText(place.node, ACCESS) != "" ==> CredentialAt(place).access == FirstText(place.node, ACCESS)
    ensures FirstText(place.node, REFRESH) != "" ==> CredentialAt(place).refresh == FirstText(place.node, REFRESH)
  {
    var o := place.node;
    var key :| key in ACCESS + REFRESH && TextAt(o, key) != "";
    assert key in ACCESS || key in REFRESH;
  }

  // ----- scores -----

  /** The nearest provider name around a candidate, metadata left aside. */
  predicate NamesCodex(place: Place) {
    var provider := LowerCase(FirstStringInMaps([place.node] + Reversed(place.ancestors), PROVIDER));
    provider == "codex" || Contains(provider, "openai")
  }

  function AccountIdFromJwt(decode: Decoder, tokens: seq<string>): string {
    if tokens == [] then "" else
      var claims := decode(tokens[0]);
      if claims.Some? && claims.value.accountId != "" then claims.value.accountId else AccountIdFromJwt(decode, tokens[1..])
  }

  function Score(decode: Decoder, place: Place, c: Credential): int {
    (if NamesCodex(place) then 100 else 0)
    + (if c.access != "" then 40 else 0)
    + (if decode(c.access).Some? then 20 else 0)
    + (if c.refresh != "" then 10 else 0)
    + (if c.accountId != "" || AccountIdFromJwt(decode, [c.idToken, c.access]) != "" then 8 else 0)
  }

  function CandidateAt(decode: Decoder, place: Place): Candidate {
    var credential := CredentialAt(place);
    Candidate(place, credential, FirstValueInMaps(ContextMaps(place), EXPIRES), Score(decode, place, credential))
  }

  lemma CandidateCarries(decode: Decoder, place: Place)
    ensures CandidateAt(decode, place).place == place && CandidateAt(decode, place).credential == CredentialAt(place)
  {
    hide CredentialAt, Score;
  }

  /** First the provider decides, then an access token, one that can be decoded, a refresh token, and a known account. */
  predicate Outranks(decode: Decoder, p: Place, q: Place) {
    var c, d := CredentialAt(p), CredentialAt(q);
    if NamesCodex(p) != NamesCodex(q) then NamesCodex(p)
    else if (c.access != "") != (d.access != "") then c.access != ""
    else if decode(c.access).Some? != decode(d.access).Some? then decode(c.access).Some?
    else if (c.refresh != "") != (d.refresh != "") then c.refresh != ""
    else KnowsAccount(decode, c) && !KnowsAccount(decode, d)
  }

  predicate KnowsAccount(decode: Decoder, c: Credential) {
    c.accountId != "" || AccountIdFromJwt(decode, [c.idToken, c.access]) != ""
  }

  /** The order the scores impose is that ranking: no sum of lesser merits makes up for a greater one. */
  lemma ScoresRank(decode: Decoder, p: Place, q: Place)
    ensures CandidateAt(decode, p).score > CandidateAt(decode, q).score <==> Outranks(decode, p, q)
    ensures NamesCodex(p) && !NamesCodex(q) ==> CandidateAt(decode, p).score > CandidateAt(decode, q).score
    ensures NamesCodex(p) == NamesCodex(q) && CredentialAt(p).access != "" && CredentialAt(q).access == "" ==>
              CandidateAt(decode, p).score > CandidateAt(decode, q).score
  {
    hide CredentialAt, NamesCodex, AccountIdFromJwt;
  }

  // ----- the nearest object decides -----

  /** Where a field of a candidate may be found: in its object, an ancestor, or under a metadata key of an ancestor. */
  datatype Spot = Own | Ancestor(level: nat) | Beside(level: nat, index: nat)

  ghost function ObjectAround(ancestors: seq<Fields>, spot: Spot): Option<Fields> {
    match spot
    case Own => None
    case Ancestor(level) => if level < |ancestors| then Some(ancestors[level]) else None
    case Beside(level, index) =>
      if level < |ancestors| && index < |METADATA| && METADATA[index] in ancestors[level] && ancestors[level][METADATA[index]].Object?
      then Some(ancestors[level][METADATA[index]].fields) else None
  }

  ghost function ObjectAt(place: Place, spot: Spot): Option<Fields> {
    if spot.Own? then Some(place.node) else ObjectAround(place.ancestors, spot)
  }

  /** The object is nearest, then the ancestors from the inside out, each followed by its account, profile and user. */
  ghost predicate Nearer(p: Spot, q: Spot) {
    match q
    case Own => false
    case Ancestor(level) => p.Own? || p.level > level
    case Beside(level, index) => p.Own? || p.level > level || (p.level == level && (p.Ancestor? || p.index < index))
  }

  ghost predicate NoText(o: Fields, keys: seq<string>) {
    forall key <- keys :: TextAt(o, key) == ""
  }

  /** The text stands under one of the keys, and none stands under an earlier one. */
  ghost predicate TextHere(o: Fields, keys: seq<string>, text: string) {
    text != "" && exists k | 0 <= k < |keys| :: TextAt(o, keys[k]) == text && NoText(o, keys[..k])
  }

  /** The text of the nearest spot that has one; it is empty exactly when no spot has one. */
  ghost predicate NearestText(place: Place, keys: seq<string>, text: string) {
    if text == "" then forall spot | ObjectAt(place, spot).Some? :: NoText(ObjectAt(place, spot).value, keys)
    else exists spot | ObjectAt(place, spot).Some? ::
           && TextHere(ObjectAt(place, spot).value, keys, text)
           && forall nearer | Nearer(nearer, spot) && ObjectAt(place, nearer).Some? :: NoText(ObjectAt(place, nearer).value, keys)
  }

  ghost predicate NoValue(o: Fields, keys: seq<string>) {
    forall key <- keys :: key in o ==> o[key] == Null
  }

  ghost predicate ValueHere(o: Fields, keys: seq<string>, value: Json) {
    value != Null && exists k | 0 <= k < |keys| :: keys[k] in o && o[keys[k]] == value && NoValue(o, keys[..k])
  }

  /** The value of the nearest spot that has one other than null. */
  ghost predicate NearestValue(place: Place, keys: seq<string>, value: Option<Json>) {
    if value.None? then forall spot | ObjectAt(place, spot).Some? :: NoValue(ObjectAt(place, spot).value, keys)
    else exists spot | ObjectAt(place, spot).Some? ::
           && ValueHere(ObjectAt(place, spot).value, keys, value.value)
           && forall nearer | Nearer(nearer, spot) && ObjectAt(place, nearer).Some? :: NoValue(ObjectAt(place, nearer).value, keys)
  }

  /** Every field of a credential, and when it expires, is found at the nearest spot. */
  ghost predicate FieldsAreNearest(place: Place, c: Credential, expires: Option<Json>) {
    && NearestText(place, ["access_token", "accessToken", "access"], c.access)
    && NearestText(place, ["refresh_token", "refreshToken", "refresh"], c.refresh)
    && NearestText(place, ["id_token", "idToken"], c.idToken)
    && NearestText(place, ["account_id", "accountId", "chatgpt_account_id", "chatgptAccountId"], c.accountId)
    && NearestText(place, ["email", "account_email", "accountEmail"], c.email)
    && NearestText(place, ["plan_type", "planType", "plan"], c.plan)
    && NearestValue(place, ["expires_at", "expiresAt", "expired", "expiry"], expires)
  }

  ghost function BesideSpots(o: Fields, level: nat, from: nat): seq<Spot>
    requires from <= |METADATA|
    decreases |METADATA| - from
  {
    if from == |METADATA| then [] else
      (if METADATA[from] in o && o[METADATA[from]].Object? then [Beside(level, from)] else []) + BesideSpots(o, level, from + 1)
  }

  ghost function AroundSpots(ancestors: seq<Fields>): seq<Spot> {
    if ancestors == [] then [] else
      var n := |ancestors| - 1;
      [Ancestor(n)] + BesideSpots(ancestors[n], n, 0) + AroundSpots(ancestors[..n])
  }

  /** The metadata objects of one object, in order and without a gap. */
  ghost predicate ListsBeside(spots: seq<Spot>, maps: seq<Fields>, o: Fields, level: nat, from: nat) {
    && |spots| == |maps|
    && (forall i :: 0 <= i < |spots| ==>
          && spots[i].Beside? && spots[i].level == level && from <= spots[i].index < |METADATA|
          && METADATA[spots[i].index] in o && o[METADATA[spots[i].index]] == Object(maps[i]))
    && (forall i, j :: 0 <= i < j < |spots| ==> spots[i].index < spots[j].index)
    && (forall k | from <= k < |METADATA| :: METADATA[k] in o && o[METADATA[k]].Object? ==> Beside(level, k) in spots)
  }

  lemma {:induction false} MetadataInOrder(o: Fields, level: nat, from: nat)
    requires from <= |METADATA|
    ensures ListsBeside(BesideSpots(o, level, from), MetadataOf(o, METADATA[from..]), o, level, from)
    decreases |METADATA| - from
  {
    MetadataStep(o, from);
    if from < |METADATA| {
      hide MetadataOf;
      MetadataInOrder(o, level, from + 1);
      if METADATA[from] in o && o[METADATA[from]].Object? {
        FirstBeside(BesideSpots(o, level, from + 1), MetadataOf(o, METADATA[from + 1..]), o, level, from);
      } else {
        NothingBeside(BesideSpots(o, level, from + 1), MetadataOf(o, METADATA[from + 1..]), o, level, from);
      }
    }
  }

  lemma MetadataStep(o: Fields, from: nat)
    requires from <= |METADATA|
    ensures from == |METADATA| ==> MetadataOf(o, METADATA[from..]) == []
    ensures from < |METADATA| ==>
              MetadataOf(o, METADATA[from..]) ==
              (if METADATA[from] in o && o[METADATA[from]].Object? then [o[METADATA[from]].fields] else []) + MetadataOf(o, METADATA[from + 1..])
  {
    if from < |METADATA| { assert METADATA[from..][1..] == METADATA[from + 1..]; }
  }

  lemma FirstBeside(spots: seq<Spot>, maps: seq<Fields>, o: Fields, level: nat, from: nat)
    requires from < |METADATA| && METADATA[from] in o && o[METADATA[from]].Object?
    requires ListsBeside(spots, maps, o, level, from + 1)
    ensures ListsBeside([Beside(level, from)] + spots, [o[METADATA[from]].fields] + maps, o, level, from)
  {
  }

  lemma NothingBeside(spots: seq<Spot>, maps: seq<Fields>, o: Fields, level: nat, from: nat)
    requires from < |METADATA| && !(METADATA[from] in o && o[METADATA[from]].Object?)
    requires ListsBeside(spots, maps, o, level, from + 1)
    ensures ListsBeside([] + spots, [] + maps, o, level, from)
  {
    assert [] + spots == spots && [] + maps == maps;
  }

  /** Objects listed with their spots, nearest first and without a gap. */
  ghost predicate ListsAround(spots: seq<Spot>, maps: seq<Fields>, ancestors: seq<Fields>) {
    && |spots| == |maps|
    && (forall i :: 0 <= i < |spots| ==> !spots[i].Own? && ObjectAround(ancestors, spots[i]) == Some(maps[i]))
    && (forall i, j :: 0 <= i < j < |spots| ==> Nearer(spots[i], spots[j]))
    && (forall spot | ObjectAround(ancestors, spot).Some? :: spot in spots)
  }

  lemma {:induction false} AncestorsInOrder(ancestors: seq<Fields>)
    ensures ListsAround(AroundSpots(ancestors), Around(ancestors), ancestors)
  {
    if ancestors != [] {
      hide BesideSpots, MetadataOf, Around;
      var n := |ancestors| - 1;
      var inner, before := ancestors[n], ancestors[..n];
      AncestorsInOrder(before);
      MetadataInOrder(inner, n, 0);
      assert METADATA[0..] == METADATA;
      AroundStep(ancestors);
      OuterLevel([Ancestor(n)] + BesideSpots(inner, n, 0), [inner] + MetadataOf(inner, METADATA), AroundSpots(before), Around(before), ancestors);
    }
  }

  lemma AroundStep(ancestors: seq<Fields>)
    requires ancestors != []
    ensures var n := |ancestors| - 1;
            Around(ancestors) == [ancestors[n]] + MetadataOf(ancestors[n], METADATA) + Around(ancestors[..n])
  {
    hide MetadataOf, Surrounds;
  }

  /** The objects of the innermost level come before those further out. */
  lemma OuterLevel(own: seq<Spot>, ownMaps: seq<Fields>, outer: seq<Spot>, outerMaps: seq<Fields>, ancestors: seq<Fields>)
    requires ancestors != [] && own != [] && ownMaps != []
    requires var n := |ancestors| - 1;
             && own[0] == Ancestor(n) && ownMaps[0] == ancestors[n]
             && ListsBeside(own[1..], ownMaps[1..], ancestors[n], n, 0)
             && ListsAround(outer, outerMaps, ancestors[..n])
    ensures ListsAround(own + outer, ownMaps + outerMaps, ancestors)
  {
    var n := |ancestors| - 1;
    var spots, maps := own + outer, ownMaps + outerMaps;
    assert |own| == |ownMaps|;
    forall i | 0 <= i < |spots| ensures !spots[i].Own? && ObjectAround(ancestors, spots[i]) == Some(maps[i]) {
      if 0 < i < |own| { assert spots[i] == own[1..][i - 1] && maps[i] == ownMaps[1..][i - 1]; }
      if i >= |own| { assert spots[i] == outer[i - |own|] && maps[i] == outerMaps[i - |own|]; }
    }
    forall i, j | 0 <= i < j < |spots| ensures Nearer(spots[i], spots[j]) {
      if 0 < i < |own| { assert spots[i] == own[1..][i - 1]; }
      if 0 < j < |own| { assert spots[j] == own[1..][j - 1]; }
      if j >= |own| { assert spots[j] == outer[j - |own|] && ObjectAround(ancestors[..n], outer[j - |own|]).Some?; }
    }
    forall spot | ObjectAround(ancestors, spot).Some? ensures spot in spots {
      if spot.level < n {
        assert ObjectAround(ancestors[..n], spot).Some?;
      } else if spot.Beside? {
        assert spot in own[1..];
      }
    }
  }

  lemma {:induction false} FirstTextIsHere(o: Fields, keys: seq<string>)
    ensures FirstText(o, keys) == "" <==> NoText(o, keys)
    ensures FirstText(o, keys) != "" ==> TextHere(o, keys, FirstText(o, keys))
  {
    if FirstText(o, keys) != "" {
      hide TextAt, NoText;
      FirstTextStep(o, keys);
      if TextAt(o, keys[0]) != "" {
        NoKeys(o, keys[..0]);
      } else {
        FirstTextIsHere(o, keys[1..]);
        LaterTextHere(o, keys, FirstText(o, keys));
      }
    }
  }

  lemma FirstTextStep(o: Fields, keys: seq<string>)
    requires FirstText(o, keys) != ""
    ensures keys != []
    ensures FirstText(o, keys) == if TextAt(o, keys[0]) != "" then TextAt(o, keys[0]) else FirstText(o, keys[1..])
  {
    hide TextAt;
  }

  lemma NoKeys(o: Fields, keys: seq<string>)
    requires |keys| == 0
    ensures NoText(o, keys)
  {
  }

  lemma LaterTextHere(o: Fields, keys: seq<string>, text: string)
    requires keys != [] && TextAt(o, keys[0]) == "" && TextHere(o, keys[1..], text)
    ensures TextHere(o, keys, text)
  {
    hide TextAt;
    var rest := keys[1..];
    var k :| 0 <= k < |rest| && TextAt(o, rest[k]) == text && NoText(o, rest[..k]);
    assert keys[..k + 1] == [keys[0]] + rest[..k] && keys[k + 1] == rest[k];
  }

  lemma {:induction false} FirstValueIsHere(o: Fields, keys: seq<string>)
    ensures FirstValue(o, keys).None? <==> NoValue(o, keys)
    ensures FirstValue(o, keys).Some? ==> ValueHere(o, keys, FirstValue(o, keys).value)
  {
    if keys != [] {
      var rest := keys[1..];
      FirstValueIsHere(o, rest);
      if keys[0] in o && o[keys[0]] != Null {
        assert NoValue(o, keys[..0]);
      } else if FirstValue(o, keys).Some? {
        var value := FirstValue(o, keys).value;
        var k :| 0 <= k < |rest| && rest[k] in o && o[rest[k]] == value && NoValue(o, rest[..k]);
        assert keys[..k + 1] == [keys[0]] + rest[..k] && keys[k + 1] == rest[k];
      }
    }
  }

  lemma {:induction false} FirstValueIsFirst(maps: seq<Fields>, keys: seq<string>)
    ensures FirstValueInMaps(maps, keys).None? <==> forall i :: 0 <= i < |maps| ==> FirstValue(maps[i], keys).None?
    ensures FirstValueInMaps(maps, keys).Some? ==> exists i | 0 <= i < |maps| ::
              FirstValue(maps[i], keys) == FirstValueInMaps(maps, keys) && forall j | 0 <= j < i :: FirstValue(maps[j], keys).None?
  {
    if maps != [] {
      hide FirstValue;
      var rest := maps[1..];
      FirstValueIsFirst(rest, keys);
      if FirstValue(maps[0], keys).None? && FirstValueInMaps(rest, keys).Some? {
        var i :| 0 <= i < |rest| && FirstValue(rest[i], keys) == FirstValueInMaps(rest, keys) && forall j | 0 <= j < i :: FirstValue(rest[j], keys).None?;
        assert maps[i + 1] == rest[i] && forall j | 0 < j <= i :: maps[j] == rest[j - 1];
      }
    }
  }

  /** The objects that a credential is put together from are those of the spots, nearest first. */
  ghost predicate ListsContext(spots: seq<Spot>, maps: seq<Fields>, place: Place) {
    && |spots| == |maps|
    && (forall i :: 0 <= i < |spots| ==> ObjectAt(place, spots[i]) == Some(maps[i]))
    && (forall spot | ObjectAt(place, spot).Some? :: spot in spots)
    && (forall i, j :: 0 <= i < |spots| && 0 <= j < |spots| && Nearer(spots[i], spots[j]) ==> i < j)
  }

  lemma ContextInOrder(place: Place)
    ensures ListsContext([Own] + AroundSpots(place.ancestors), ContextMaps(place), place)
  {
    hide Around, AroundSpots;
    AncestorsInOrder(place.ancestors);
    var around := AroundSpots(place.ancestors);
    var spots := [Own] + around;
    forall i, j | 0 <= j <= i < |spots| ensures !Nearer(spots[i], spots[j]) {
      if 0 < j < i { assert Nearer(around[j - 1], around[i - 1]); }
    }
  }

  lemma TextIsNearest(place: Place, keys: seq<string>)
    ensures NearestText(place, keys, FirstStringInMaps(ContextMaps(place), keys))
  {
    hide FirstText, ContextMaps, FirstStringInMaps, ObjectAt, Nearer, NoText, TextHere;
    var maps, spots := ContextMaps(place), [Own] + AroundSpots(place.ancestors);
    var text := FirstStringInMaps(maps, keys);
    ContextInOrder(place);
    FirstStringIsFirst(maps, keys);
    if text == "" {
      forall spot | ObjectAt(place, spot).Some? ensures NoText(ObjectAt(place, spot).value, keys) {
        var i :| 0 <= i < |spots| && spots[i] == spot;
        assert maps[i] in maps;
        FirstTextIsHere(maps[i], keys);
      }
    } else {
      var i: nat :| FirstWith(maps, keys, i, text);
      FirstTextIsHere(maps[i], keys);
      forall nearer | Nearer(nearer, spots[i]) && ObjectAt(place, nearer).Some? ensures NoText(ObjectAt(place, nearer).value, keys) {
        var j :| 0 <= j < |spots| && spots[j] == nearer;
        FirstTextIsHere(maps[j], keys);
      }
      assert ObjectAt(place, spots[i]).Some?;
    }
  }

  lemma ValueIsNearest(place: Place, keys: seq<string>)
    ensures NearestValue(place, keys, FirstValueInMaps(ContextMaps(place), keys))
  {
    hide FirstValue, ContextMaps, FirstValueInMaps, ObjectAt, Nearer, NoValue, ValueHere;
    var maps, spots := ContextMaps(place), [Own] + AroundSpots(place.ancestors);
    ContextInOrder(place);
    FirstValueIsFirst(maps, keys);
    var value := FirstValueInMaps(maps, keys);
    if value.None? {
      forall spot | ObjectAt(place, spot).Some? ensures NoValue(ObjectAt(place, spot).value, keys) {
        var i :| 0 <= i < |spots| && spots[i] == spot;
        FirstValueIsHere(maps[i], keys);
        assert FirstValue(maps[i], keys).None?;
      }
    } else {
      var i :| 0 <= i < |maps| && FirstValue(maps[i], keys) == value && forall j | 0 <= j < i :: FirstValue(maps[j], keys).None?;
      FirstValueIsHere(maps[i], keys);
      forall nearer | Nearer(nearer, spots[i]) && ObjectAt(place, nearer).Some? ensures NoValue(ObjectAt(place, nearer).value, keys) {
        var j :| 0 <= j < |spots| && spots[j] == nearer;
        FirstValueIsHere(maps[j], keys);
        assert FirstValue(maps[j], keys).None?;
      }
      assert ObjectAt(place, spots[i]).Some?;
    }
  }

  /** Each field of a candidate is that of the nearest object that has it. */
  lemma NearestFieldsAreUsed(decode: Decoder, place: Place)
    ensures FieldsAreNearest(place, CredentialAt(place), CandidateAt(decode, place).expires)
  {
    hide NearestText, NearestValue, ContextMaps, FirstStringInMaps, FirstValueInMaps, Score;
    TextIsNearest(place, ACCESS);
    TextIsNearest(place, REFRESH);
    TextIsNearest(place, ID_TOKEN);
    TextIsNearest(place, ACCOUNT_ID);
    TextIsNearest(place, EMAIL);
    TextIsNearest(place, PLAN);
    ValueIsNearest(place, EXPIRES);
  }

  /** The provider name of the nearest object that has one, metadata left aside. */
  ghost predicate NearestProvider(place: Place, text: string) {
    var keys := ["type", "provider", "provider_id", "providerId"];
    if text == "" then NoText(place.node, keys) && forall o <- place.ancestors :: NoText(o, keys)
    else || TextHere(place.node, keys, text)
         || (NoText(place.node, keys) && exists i | 0 <= i < |place.ancestors| ::
               TextHere(place.ancestors[i], keys, text) && forall j | i < j < |place.ancestors| :: NoText(place.ancestors[j], keys))
  }

  lemma ProviderAt(place: Place, maps: seq<Fields>, k: nat, text: string)
    requires FromInside(place, maps) && FirstWith(maps, PROVIDER, k, text)
    ensures NearestProvider(place, text)
  {
    hide FirstText, NoText, TextHere;
    var n := |place.ancestors|;
    FirstTextIsHere(maps[k], PROVIDER);
    if k > 0 {
      FirstTextIsHere(maps[0], PROVIDER);
      forall j | n - k < j < n ensures NoText(place.ancestors[j], PROVIDER) {
        FirstTextIsHere(maps[n - j], PROVIDER);
      }
      assert TextHere(place.ancestors[n - k], PROVIDER, text);
    }
  }

  lemma NoProvider(place: Place, maps: seq<Fields>)
    requires place.node in maps && forall o <- place.ancestors :: o in maps
    requires forall o <- maps :: FirstText(o, PROVIDER) == ""
    ensures NearestProvider(place, "")
  {
    hide FirstText, NoText, TextHere;
    FirstTextIsHere(place.node, PROVIDER);
    forall o <- place.ancestors ensures NoText(o, PROVIDER) {
      FirstTextIsHere(o, PROVIDER);
    }
  }

  /** The objects from the inside out. */
  ghost predicate FromInside(place: Place, maps: seq<Fields>) {
    var n := |place.ancestors|;
    |maps| == n + 1 && maps[0] == place.node && forall i :: 0 <= i < n ==> place.ancestors[i] == maps[n - i]
  }

  lemma ReversedIsFromInside(place: Place)
    ensures FromInside(place, [place.node] + Reversed(place.ancestors))
  {
  }

  lemma AllListed(place: Place, maps: seq<Fields>)
    requires FromInside(place, maps)
    ensures place.node in maps && forall o <- place.ancestors :: o in maps
  {
    forall o <- place.ancestors ensures o in maps {
      var i :| 0 <= i < |place.ancestors| && place.ancestors[i] == o;
      assert maps[|place.ancestors| - i] in maps;
    }
  }

  lemma ProviderIsNearest(place: Place, maps: seq<Fields>)
    requires FromInside(place, maps)
    ensures NearestProvider(place, FirstStringInMaps(maps, PROVIDER))
  {
    hide NearestProvider, FirstText, FirstStringInMaps, FirstWith, FromInside;
    FirstStringIsFirst(maps, PROVIDER);
    AllListed(place, maps);
    var text := FirstStringInMaps(maps, PROVIDER);
    if text == "" {
      NoProvider(place, maps);
    } else {
      var k: nat :| FirstWith(maps, PROVIDER, k, text);
      ProviderAt(place, maps, k, text);
    }
  }

  /** A place is a Codex record when the nearest provider name is codex or speaks of openai. */
  lemma CodexIsNamedNearby(place: Place)
    ensures exists text :: NearestProvider(place, text) &&
              (NamesCodex(place) <==> LowerCase(text) == "codex" || Contains(LowerCase(text), "openai"))
  {
    hide NearestProvider, FirstStringInMaps, Contains, LowerCase, Reversed, FromInside;
    ReversedIsFromInside(place);
    ProviderIsNearest(place, [place.node] + Reversed(place.ancestors));
  }

  // ----- the walk -----

  /** The objects a walk visits, each with the ancestors it is visited with. */
  ghost predicate Visits(value: Json, ancestors: seq<Fields>, depth: nat, place: Place)
    decreases 11 - depth
  {
    depth <= MAX_DEPTH &&
    match value
    case Object(fields) =>
      place == Place(fields, ancestors) || exists key <- fields :: Visits(fields[key], ancestors + [fields], depth + 1, place)
    case List(items) => exists i | 0 <= i < |items| :: Visits(items[i], ancestors, depth + 1, place)
    case Text(_, nested) => nested.Some? && Visits(nested.value, ancestors, depth + 1, place)
    case _ => false
  }

  /** The object is the value itself, or lies in it with only lists and nested documents in between. */
  predicate Directly(value: Json, o: Fields) {
    match value
    case Object(fields) => fields == o
    case List(items) => exists i | 0 <= i < |items| :: Directly(items[i], o)
    case Text(_, nested) => nested.Some? && Directly(nested.value, o)
    case _ => false
  }

  /** One object holds another in one of its fields. */
  predicate Holds(outer: Fields, inner: Fields) {
    exists key <- outer :: Directly(outer[key], inner)
  }

  /** Every ancestor of a place holds the next one, and the last one holds the object. */
  ghost predicate Nested(place: Place, from: nat) {
    forall i | from <= i < |place.ancestors| ::
      Holds(place.ancestors[i], if i + 1 < |place.ancestors| then place.ancestors[i + 1] else place.node)
  }

  ghost predicate Starts(value: Json, ancestors: seq<Fields>, place: Place) {
    && ancestors <= place.ancestors && Nested(place, |ancestors|)
    && Directly(value, if |ancestors| < |place.ancestors| then place.ancestors[|ancestors|] else place.node)
  }

  /** The ancestors of a visited object are the objects around it, never a sibling. */
  lemma {:induction false} VisitedIsNested(value: Json, ancestors: seq<Fields>, depth: nat, place: Place)
    requires Visits(value, ancestors, depth, place)
    ensures Starts(value, ancestors, place)
    decreases 11 - depth
  {
    match value
    case Object(fields) =>
      if place != Place(fields, ancestors) {
        var key :| key in fields && Visits(fields[key], ancestors + [fields], depth + 1, place);
        VisitedIsNested(fields[key], ancestors + [fields], depth + 1, place);
        var n := |ancestors|;
        assert place.ancestors[n] == (ancestors + [fields])[n];
        assert Holds(fields, if n + 1 < |place.ancestors| then place.ancestors[n + 1] else place.node);
      }
    case List(items) =>
      var i :| 0 <= i < |items| && Visits(items[i], ancestors, depth + 1, place);
      VisitedIsNested(items[i], ancestors, depth + 1, place);
    case Text(_, nested) =>
      VisitedIsNested(nested.value, ancestors, depth + 1, place);
    case _ =>
  }

  ghost predicate Sound(candidates: seq<Candidate>, decode: Decoder, value: Json, ancestors: seq<Fields>, depth: nat) {
    forall c <- candidates :: Visits(value, ancestors, depth, c.place) && HasToken(c.place.node) && c == CandidateAt(decode, c.place)
  }

  ghost predicate Covers(candidates: seq<Candidate>, decode: Decoder, value: Json, ancestors: seq<Fields>, depth: nat) {
    forall place: Place :: Visits(value, ancestors, depth, place) && HasToken(place.node) ==> CandidateAt(decode, place) in candidates
  }

  lemma CoversMore(candidates: seq<Candidate>, more: seq<Candidate>, decode: Decoder, value: Json, ancestors: seq<Fields>, depth: nat)
    requires Covers(candidates, decode, value, ancestors, depth)
    ensures Covers(candidates + more, decode, value, ancestors, depth)
  {
    hide HasToken, CandidateAt, Visits;
  }

  lemma CoversAfter(earlier: seq<Candidate>, candidates: seq<Candidate>, decode: Decoder, value: Json, ancestors: seq<Fields>, depth: nat)
    requires Covers(candidates, decode, value, ancestors, depth)
    ensures Covers(earlier + candidates, decode, value, ancestors, depth)
  {
    hide HasToken, CandidateAt, Visits;
  }

  lemma NodeFirst(decode: Decoder, fields: Fields, ancestors: seq<Fields>, depth: nat, found: seq<Candidate>)
    requires depth <= MAX_DEPTH
    requires found == if HasToken(fields) then [CandidateAt(decode, Place(fields, ancestors))] else []
    ensures Sound(found, decode, Object(fields), ancestors, depth)
  {
    hide HasToken, CredentialAt, Score;
  }

  /** Candidates of a field are candidates of the object. */
  lemma SoundAbove(earlier: seq<Candidate>, candidates: seq<Candidate>, decode: Decoder, fields: Fields, key: string, ancestors: seq<Fields>, depth: nat)
    requires depth <= MAX_DEPTH && key in fields
    requires Sound(earlier, decode, Object(fields), ancestors, depth)
    requires Sound(candidates, decode, fields[key], ancestors + [fields], depth + 1)
    ensures Sound(earlier + candidates, decode, Object(fields), ancestors, depth)
  {
    hide HasToken, CandidateAt;
  }

  lemma ObjectCovered(candidates: seq<Candidate>, decode: Decoder, fields: Fields, ancestors: seq<Fields>, depth: nat)
    requires HasToken(fields) ==> CandidateAt(decode, Place(fields, ancestors)) in candidates
    requires forall key <- fields :: Covers(candidates, decode, fields[key], ancestors + [fields], depth + 1)
    ensures Covers(candidates, decode, Object(fields), ancestors, depth)
  {
    hide HasToken, CandidateAt;
    forall place: Place | Visits(Object(fields), ancestors, depth, place) && HasToken(place.node)
      ensures CandidateAt(decode, place) in candidates
    {
      if place != Place(fields, ancestors) {
        var key :| key in fields && Visits(fields[key], ancestors + [fields], depth + 1, place);
        assert Covers(candidates, decode, fields[key], ancestors + [fields], depth + 1);
      }
    }
  }

  class Search {
    const decode: Decoder
    var candidates: seq<Candidate>

    constructor (decode: Decoder)
      ensures this.decode == decode && candidates == []
    {
      this.decode := decode;
      candidates := [];
    }

    /** Appends the candidates of one value, exactly the visited objects with a token; deeper than the bound nothing is visited. */
    method Walk(value: Json, ancestors: seq<Fields>, depth: nat)
      modifies this`candidates
      ensures old(candidates) <= candidates
      ensures Sound(candidates[|old(candidates)|..], decode, value, ancestors, depth)
      ensures Covers(candidates[|old(candidates)|..], decode, value, ancestors, depth)
      decreases 11 - depth
    {
      hide HasToken, CandidateAt;
      if depth > MAX_DEPTH { return; }
      match value
      case Object(fields) => WalkObject(fields, ancestors, depth);
      case List(items) => WalkList(items, ancestors, depth);
      case Text(_, nested) =>
        if nested.Some? { Walk(nested.value, ancestors, depth + 1); }
      case _ =>
    }

    method WalkObject(fields: Fields, ancestors: seq<Fields>, depth: nat)
      requires depth <= MAX_DEPTH
      modifies this`candidates
      ensures old(candidates) <= candidates
      ensures Sound(candidates[|old(candidates)|..], decode, Object(fields), ancestors, depth)
      ensures Covers(candidates[|old(candidates)|..], decode, Object(fields), ancestors, depth)
      decreases 11 - depth, 0
    {
      hide HasToken, CandidateAt, CredentialAt, Score, Covers, Sound;
      ghost var start := candidates;
      var here := Place(fields, ancestors);
      var found: seq<Candidate> := [];
      if HasToken(fields) { found := [CandidateAt(decode, here)]; }
      candidates := candidates + found;
      ghost var since := found;
      NodeFirst(decode, fields, ancestors, depth, found);
      var rest := fields.Keys;
      while rest != {}
        invariant rest <= fields.Keys
        invariant candidates == start + since && Sound(since, decode, Object(fields), ancestors, depth)
        invariant HasToken(fields) ==> CandidateAt(decode, here) in since
        invariant forall key <- fields :: key !in rest ==> Covers(since, decode, fields[key], ancestors + [fields], depth + 1)
        decreases rest
      {
        var key :| key in rest;
        ghost var before := candidates;
        Walk(fields[key], ancestors + [fields], depth + 1);
        ghost var added := candidates[|before|..];
        SoundAbove(since, added, decode, fields, key, ancestors, depth);
        forall k <- fields | k !in rest ensures Covers(since + added, decode, fields[k], ancestors + [fields], depth + 1) {
          CoversMore(since, added, decode, fields[k], ancestors + [fields], depth + 1);
        }
        CoversAfter(since, added, decode, fields[key], ancestors + [fields], depth + 1);
        since := since + added;
        rest := rest - {key};
      }
      ObjectCovered(since, decode, fields, ancestors, depth);
      assert candidates[|start|..] == since;
    }

    method WalkList(items: seq<Json>, ancestors: seq<Fields>, depth: nat)
      requires depth <= MAX_DEPTH
      modifies this`candidates
      ensures old(candidates) <= candidates
      ensures Sound(candidates[|old(candidates)|..], decode, List(items), ancestors, depth)
      ensures Covers(candidates[|old(candidates)|..], decode, List(items), ancestors, depth)
      decreases 11 - depth, 0
    {
      hide HasToken, CandidateAt;
      ghost var start := candidates;
      ghost var since: seq<Candidate> := [];
      for i := 0 to |items|
        invariant candidates == start + since && Sound(since, decode, List(items), ancestors, depth)
        invariant forall j | 0 <= j < i :: Covers(since, decode, items[j], ancestors, depth + 1)
      {
        hide Covers, Visits;
        ghost var before := candidates;
        Walk(items[i], ancestors, depth + 1);
        ghost var added := candidates[|before|..];
        ItemAbove(since, added, decode, items, i, ancestors, depth);
        forall j | 0 <= j < i ensures Covers(since + added, decode, items[j], ancestors, depth + 1) {
          CoversMore(since, added, decode, items[j], ancestors, depth + 1);
        }
        CoversAfter(since, added, decode, items[i], ancestors, depth + 1);
        since := since + added;
      }
      ListCovered(since, decode, items, ancestors, depth);
      assert candidates[|start|..] == since;
    }
  }

  lemma ItemAbove(earlier: seq<Candidate>, candidates: seq<Candidate>, decode: Decoder, items: seq<Json>, i: nat, ancestors: seq<Fields>, depth: nat)
    requires depth <= MAX_DEPTH && i < |items|
    requires Sound(earlier, decode, List(items), ancestors, depth) && Sound(candidates, decode, items[i], ancestors, depth + 1)
    ensures Sound(earlier + candidates, decode, List(items), ancestors, depth)
  {
    hide HasToken, CandidateAt;
  }

  lemma ListCovered(candidates: seq<Candidate>, decode: Decoder, items: seq<Json>, ancestors: seq<Fields>, depth: nat)
    requires forall j | 0 <= j < |items| :: Covers(candidates, decode, items[j], ancestors, depth + 1)
    ensures Covers(candidates, decode, List(items), ancestors, depth)
  {
    hide HasToken, CandidateAt;
  }

  // ----- the selection -----

  /** A visited object with a token whose score no other one exceeds. */
  ghost predicate Best(decode: Decoder, root: Json, place: Place) {
    && Visits(root, [], 0, place) && HasToken(place.node)
    && forall other: Place :: Visits(root, [], 0, other) && HasToken(other.node) ==>
         CandidateAt(decode, other).score <= CandidateAt(decode, place).score
  }

  /** The first candidate, in the order of the walk, among those with the highest score. */
  method SelectCredential(decode: Decoder, root: Json) returns (best: Option<Candidate>, ghost candidates: seq<Candidate>)
    ensures Sound(candidates, decode, root, [], 0) && Covers(candidates, decode, root, [], 0)
    ensures best.None? <==> forall place: Place :: Visits(root, [], 0, place) ==> !HasToken(place.node)
    ensures best.Some? ==> Best(decode, root, best.value.place) && best.value == CandidateAt(decode, best.value.place)
    ensures best.Some? ==> FieldsAreNearest(best.value.place, best.value.credential, best.value.expires)
    ensures best.Some? ==> exists k | 0 <= k < |candidates| ::
              candidates[k] == best.value && forall j | 0 <= j < k :: candidates[j].score < best.value.score
  {
    hide HasToken, CandidateAt, Visits, FieldsAreNearest;
    var search := new Search(decode);
    search.Walk(root, [], 0);
    var found := search.candidates;
    candidates := found;
    assert Sound(found, decode, root, [], 0) && Covers(found, decode, root, [], 0) by { assert found[0..] == found; }
    if |found| == 0 { return None, candidates; }
    var k := 0;
    for i := 1 to |found|
      invariant 0 <= k < i
      invariant forall j | 0 <= j < i :: found[j].score <= found[k].score
      invariant forall j | 0 <= j < k :: found[j].score < found[k].score
    {
      if found[i].score > found[k].score || (found[i].score == found[k].score && i < k) { k := i; }
    }
    assert found[k] in found;
    forall other: Place | Visits(root, [], 0, other) && HasToken(other.node)
      ensures CandidateAt(decode, other).score <= found[k].score
    {
      var j :| 0 <= j < |found| && found[j] == CandidateAt(decode, other);
    }
    NearestFieldsAreUsed(decode, found[k].place);
    CandidateCarries(decode, found[k].place);
    return Some(found[k]), candidates;
  }

  /** Two selections from one document, in whatever order its fields were visited, have the same score. */
  lemma OrderDoesNotChangeTheScore(decode: Decoder, root: Json, p: Place, q: Place)
    ensures Best(decode, root, p) && Best(decode, root, q) ==>
              && CandidateAt(decode, p).score == CandidateAt(decode, q).score
              && (NamesCodex(p) <==> NamesCodex(q))
              && (CredentialAt(p).access != "" <==> CredentialAt(q).access != "")
  {
    hide CandidateAt, NamesCodex, CredentialAt, Visits, HasToken;
    ScoresRank(decode, p, q);
    ScoresRank(decode, q, p);
  }

  /** A Codex record wins over any other, and what it is built from lies around it, never in a sibling record. */
  lemma SelectionIsLocal(decode: Decoder, root: Json, place: Place)
    ensures Best(decode, root, place) ==>
              && Nested(place, 0)
              && (CredentialAt(place).access != "" || CredentialAt(place).refresh != "")
              && ComesFrom(place, ACCESS, CredentialAt(place).access) && ComesFrom(place, REFRESH, CredentialAt(place).refresh)
              && ComesFrom(place, ACCOUNT_ID, CredentialAt(place).accountId) && ComesFrom(place, EMAIL, CredentialAt(place).email)
              && forall other: Place :: Visits(root, [], 0, other) && HasToken(other.node) && NamesCodex(other) ==> NamesCodex(place)
  {
    hide CandidateAt, NamesCodex, CredentialAt, Visits, HasToken, ComesFrom;
    if Best(decode, root, place) {
      VisitedIsNested(root, [], 0, place);
      CredentialComesFrom(place);
      OwnTokenIsUsed(place);
      forall other: Place | Visits(root, [], 0, other) && HasToken(other.node) && NamesCodex(other) ensures NamesCodex(place) {
        ScoresRank(decode, other, place);
      }
    }
  }
}
