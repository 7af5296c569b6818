/**
 * The user-document routes (server/src/routes/userRoutes.ts) over a document store modelled as a
 * map from user id to document, a document being a map from field name to value.
 */
module UserRoutes {
  import opened Wrappers

  /** A stored or posted value. `TimestampVal` is a server timestamp resolved at write time. */
  datatype Value =
    | NullVal
    | BoolVal(b: bool)
    | NumVal(x: real)
    | StrVal(s: string)
    | ListVal(items: seq<Value>)
    | MapVal(fields: map<string, Value>)
    | TimestampVal(t: int)

  type Doc = map<string, Value>

  /** An HTTP answer with its JSON body. */
  datatype Reply = Reply(status: int, body: Doc)

  const InternalError := Reply(500, map["error" := StrVal("Internal Server Error")])

  function Message(text: string): Reply {
    Reply(200, map["message" := StrVal(text)])
  }

  /** JavaScript truthiness of a JSON value. */
  predicate Truthy(v: Value) {
    match v
    case NullVal => false
    case BoolVal(b) => b
    case NumVal(x) => x != 0.0
    case StrVal(s) => s != ""
    case _ => true
  }

  /** `set(data, { merge: true })` on one value: a non-empty map merges field by field into a
   *  stored map; anything else replaces what was stored. */
  function MergeValue(stored: Value, incoming: Value): (r: Value)
    decreases incoming, 1
  {
    if stored.MapVal? && incoming.MapVal? && |incoming.fields| > 0 then MapVal(MergeFields(stored.fields, incoming.fields))
    else incoming
  }

  function MergeFields(stored: Doc, incoming: Doc): (r: Doc)
    decreases MapVal(incoming), 0
    ensures r.Keys == stored.Keys + incoming.Keys
    ensures forall k :: k in stored && k !in incoming ==> r[k] == stored[k]
    ensures forall k :: k in incoming && k !in stored ==> r[k] == incoming[k]
  {
    map k | k in stored.Keys + incoming.Keys ::
      if k in incoming then
        (if k in stored then MergeValue(stored[k], incoming[k]) else incoming[k])
      else stored[k]
  }

  /** The merge of a write into a document that may not exist yet. */
  function MergeInto(docs: map<string, Doc>, uid: string, incoming: Doc): (r: Doc)
    ensures r.Keys == (if uid in docs then docs[uid].Keys else {}) + incoming.Keys
  {
    MergeFields(if uid in docs then docs[uid] else map[], incoming)
  }

  /** A merge-write leaves every field the write does not name exactly as it was, and gives every
   *  named field whose value is not a non-empty map exactly the written value. */
  lemma MergeKeepsUnnamedFields(stored: Doc, incoming: Doc, k: string)
    ensures k !in incoming ==> (k in MergeFields(stored, incoming) <==> k in stored)
    ensures k !in incoming && k in stored ==> MergeFields(stored, incoming)[k] == stored[k]
    ensures k in incoming && !(incoming[k].MapVal? && |incoming[k].fields| > 0) ==> MergeFields(stored, incoming)[k] == incoming[k]
  {
  }

  /** `FieldValue.arrayUnion(...adds)` applied to the list `existing`: each element not yet
   *  present is appended, in order. */
  function ArrayUnion(existing: seq<Value>, adds: seq<Value>): (r: seq<Value>)
    decreases |adds|
  {
    if adds == [] then existing
    else ArrayUnion(if adds[0] in existing then existing else existing + [adds[0]], adds[1..])
  }

  predicate NoDuplicates(xs: seq<Value>) {
    forall i, j :: 0 <= i < j < |xs| ==> xs[i] != xs[j]
  }

  /** After the union the stored list still begins with every prior entry, contains every added
   *  element, holds nothing else, and gains no duplicate. */
  lemma {:induction false} ArrayUnionProperties(existing: seq<Value>, adds: seq<Value>)
    ensures existing <= ArrayUnion(existing, adds)
    ensures forall x :: x in adds ==> x in ArrayUnion(existing, adds)
    ensures forall x :: x in ArrayUnion(existing, adds) ==> x in existing || x in adds
    ensures NoDuplicates(existing) ==> NoDuplicates(ArrayUnion(existing, adds))
    decreases |adds|
  {
    if adds != [] {
      var next := if adds[0] in existing then existing else existing + [adds[0]];
      ArrayUnionProperties(next, adds[1..]);
      forall x | x in adds
        ensures x in ArrayUnion(existing, adds)
      {
        if x == adds[0] {
          assert x in next;
        } else {
          assert x in adds[1..];
        }
      }
      if NoDuplicates(existing) && adds[0] !in existing {
        assert NoDuplicates(next);
      }
    }
  }

  /** A union with elements already present changes nothing. */
  lemma {:induction false} ArrayUnionPresent(existing: seq<Value>, adds: seq<Value>)
    requires forall x :: x in adds ==> x in existing
    ensures ArrayUnion(existing, adds) == existing
    decreases |adds|
  {
    if adds != [] {
      ArrayUnionPresent(existing, adds[1..]);
    }
  }

  /** The list stored under a field, or the empty list when the field is missing or not a list
   *  (the union then writes a fresh list). */
  function StoredList(doc: Doc, field: string): seq<Value> {
    if field in doc && doc[field].ListVal? then doc[field].items else []
  }

  /** The keyword list of a history post, or `None` when no `searchKeywords` update is made: a
   *  falsy value is ignored, a single value is wrapped, a list is used as it is. */
  function KeywordList(keywords: Option<Value>): (r: Option<seq<Value>>)
    ensures r.Some? <==> keywords.Some? && Truthy(keywords.value) && (keywords.value.ListVal? ==> |keywords.value.items| > 0)
    ensures r.Some? && keywords.value.ListVal? ==> r.value == keywords.value.items
    ensures r.Some? && !keywords.value.ListVal? ==> r.value == [keywords.value]
  {
    if keywords.None? || !Truthy(keywords.value) then None
    else
      var keywordList := if keywords.value.ListVal? then keywords.value.items else [keywords.value];
      if |keywordList| > 0 then Some(keywordList) else None
  }

  /** The restaurant names of a history post: used only when they are a non-empty list. */
  function NameList(restaurantNames: Option<Value>): (r: Option<seq<Value>>)
    ensures r.Some? <==> restaurantNames.Some? && restaurantNames.value.ListVal? && |restaurantNames.value.items| > 0
    ensures r.Some? ==> r.value == restaurantNames.value.items
  {
    if restaurantNames.Some? && Truthy(restaurantNames.value) && restaurantNames.value.ListVal? && |restaurantNames.value.items| > 0
    then Some(restaurantNames.value.items) else None
  }

  /** `updateData` of `POST /history`: a union for the keywords and one for the names, each
   *  only when there is something to add. */
  function HistoryUpdate(body: HistoryBody): (r: map<string, seq<Value>>)
    ensures r.Keys <= {"searchKeywords", "recommendedHistory"}
    ensures "searchKeywords" in r <==> KeywordList(body.keywords).Some?
    ensures "searchKeywords" in r ==> r["searchKeywords"] == KeywordList(body.keywords).value
    ensures "recommendedHistory" in r <==> NameList(body.restaurantNames).Some?
    ensures "recommendedHistory" in r ==> r["recommendedHistory"] == NameList(body.restaurantNames).value
  {
    var keywordList := KeywordList(body.keywords);
    var names := NameList(body.restaurantNames);
    var withKeywords := if keywordList.Some? then map["searchKeywords" := keywordList.value] else map[];
    if names.Some? then withKeywords["recommendedHistory" := names.value] else withKeywords
  }

  /** `update(updateData)`: each pending union applied to its field, every other field kept. */
  function ApplyUnions(doc: Doc, updateData: map<string, seq<Value>>): (r: Doc)
    ensures r.Keys == doc.Keys + updateData.Keys
    ensures forall f :: f in doc && f !in updateData ==> r[f] == doc[f]
    ensures forall f :: f in updateData ==> r[f] == ListVal(ArrayUnion(StoredList(doc, f), updateData[f]))
  {
    map f | f in doc.Keys + updateData.Keys ::
      if f in updateData then ListVal(ArrayUnion(StoredList(doc, f), updateData[f])) else doc[f]
  }

  /** The JSON body of `POST /history`. */
  datatype HistoryBody = HistoryBody(keywords: Option<Value>, restaurantNames: Option<Value>)

  /** The JSON body of `POST /sync`; `None` is an absent property, which the store refuses. */
  datatype SyncBody = SyncBody(email: Option<Value>, displayName: Option<Value>, photoURL: Option<Value>)

  const ProfileFields: set<string> := {"email", "displayName", "photoURL", "lastLogin", "updatedAt"}

  /** `userData` of `POST /sync`, with both server timestamps resolved to `now`. */
  function SyncData(body: SyncBody, now: int): (r: Doc)
    requires body.email.Some? && body.displayName.Some? && body.photoURL.Some?
    ensures r.Keys == ProfileFields
    ensures r["lastLogin"] == TimestampVal(now) && r["updatedAt"] == TimestampVal(now)
    ensures r["email"] == body.email.value && r["displayName"] == body.displayName.value && r["photoURL"] == body.photoURL.value
  {
    map["email" := body.email.value, "displayName" := body.displayName.value, "photoURL" := body.photoURL.value,
        "lastLogin" := TimestampVal(now), "updatedAt" := TimestampVal(now)]
  }

  /** `GET /history`'s answer for a stored document (or none): each list, or `[]` when it is
   *  missing or falsy. */
  function HistoryView(doc: Option<Doc>): (r: Doc)
    ensures r.Keys == {"searchKeywords", "recommendedHistory"}
    ensures doc.None? ==> r["searchKeywords"] == ListVal([]) && r["recommendedHistory"] == ListVal([])
    ensures doc.Some? && "searchKeywords" in doc.value && Truthy(doc.value["searchKeywords"]) ==>
      r["searchKeywords"] == doc.value["searchKeywords"]
    ensures doc.Some? && !("searchKeywords" in doc.value && Truthy(doc.value["searchKeywords"])) ==>
      r["searchKeywords"] == ListVal([])
    ensures doc.Some? && "recommendedHistory" in doc.value && Truthy(doc.value["recommendedHistory"]) ==>
      r["recommendedHistory"] == doc.value["recommendedHistory"]
    ensures doc.Some? && !("recommendedHistory" in doc.value && Truthy(doc.value["recommendedHistory"])) ==>
      r["recommendedHistory"] == ListVal([])
  {
    match doc
    case None => map["searchKeywords" := ListVal([]), "recommendedHistory" := ListVal([])]
    case Some(data) =>
      map["searchKeywords" := FieldOrEmpty(data, "searchKeywords"),
          "recommendedHistory" := FieldOrEmpty(data, "recommendedHistory")]
  }

  /** `data?.field || []` */
  function FieldOrEmpty(data: Doc, field: string): Value {
    if field in data && Truthy(data[field]) then data[field] else ListVal([])
  }

  /** The `userCollection` collection. */
  class UserStore {
    var docs: map<string, Doc>

    constructor (initial: map<string, Doc>)
      ensures docs == initial
    {
      docs := initial;
    }

    /** `GET /preferences`: the whole document, or `{}` on a first login. */
    method GetPreferences(uid: string) returns (reply: Reply)
      ensures uid in docs ==> reply == Reply(200, docs[uid])
      ensures uid !in docs ==> reply == Reply(200, map[])
    {
      if uid !in docs {
        return Reply(200, map[]);
      }
      reply := Reply(200, docs[uid]);
    }

    /** `POST /preferences`: the body merged into the document, which is created if missing. */
    method SavePreferences(uid: string, body: Doc) returns (reply: Reply)
      modifies this
      ensures docs == old(docs)[uid := MergeInto(old(docs), uid, body)]
      ensures reply == Message("Preferences saved successfully")
    {
      docs := docs[uid := MergeInto(docs, uid, body)];
      reply := Message("Preferences saved successfully");
    }

    /** `POST /sync`: the three profile fields and two timestamps merged in. A property missing
     *  from the body is an undefined field, which the store refuses, giving 500. */
    method Sync(uid: string, body: SyncBody, now: int) returns (reply: Reply)
      modifies this
      ensures body.email.None? || body.displayName.None? || body.photoURL.None? ==>
        docs == old(docs) && reply == InternalError
      ensures body.email.Some? && body.displayName.Some? && body.photoURL.Some? ==>
        && docs == old(docs)[uid := MergeInto(old(docs), uid, SyncData(body, now))]
        && reply == Reply(200, map["message" := StrVal("User synced successfully"), "uid" := StrVal(uid)])
    {
      if body.email.None? || body.displayName.None? || body.photoURL.None? {
        return InternalError;
      }
      var userData := SyncData(body, now);
      docs := docs[uid := MergeInto(docs, uid, userData)];
      reply := Reply(200, map["message" := StrVal("User synced successfully"), "uid" := StrVal(uid)]);
    }

    /** `POST /history`: `updateData` is built field by field; a non-empty update is applied to
     *  the existing document, and an update of a missing document fails with 500. */
    method AppendHistory(uid: string, body: HistoryBody) returns (reply: Reply)
      modifies this
      ensures var updateData := HistoryUpdate(body);
        && (updateData == map[] ==> docs == old(docs) && reply == Message("History updated successfully"))
        && (updateData != map[] && uid !in old(docs) ==> docs == old(docs) && reply == InternalError)
        && (updateData != map[] && uid in old(docs) ==>
              docs == old(docs)[uid := ApplyUnions(old(docs)[uid], updateData)] && reply == Message("History updated successfully"))
    {
      var updateData: map<string, seq<Value>> := map[];
      var keywordList := KeywordList(body.keywords);
      if keywordList.Some? {
        updateData := updateData["searchKeywords" := keywordList.value];
      }
      var names := NameList(body.restaurantNames);
      if names.Some? {
        updateData := updateData["recommendedHistory" := names.value];
      }
      if updateData != map[] {
        if uid !in docs {
          return InternalError;
        }
        docs := docs[uid := ApplyUnions(docs[uid], updateData)];
      }
      assert updateData == HistoryUpdate(body);
      reply := Message("History updated successfully");
    }

    /** `GET /history` */
    method GetHistory(uid: string) returns (reply: Reply)
      ensures reply == Reply(200, HistoryView(if uid in docs then Some(docs[uid]) else None))
    {
      if uid !in docs {
        return Reply(200, map["searchKeywords" := ListVal([]), "recommendedHistory" := ListVal([])]);
      }
      var data := docs[uid];
      reply := Reply(200, map["searchKeywords" := FieldOrEmpty(data, "searchKeywords"),
                              "recommendedHistory" := FieldOrEmpty(data, "recommendedHistory")]);
    }
  }

  /** A sync touches only the five profile fields: every other stored field is kept as it was. */
  lemma SyncKeepsOtherFields(docs: map<string, Doc>, uid: string, body: SyncBody, now: int, k: string)
    requires body.email.Some? && body.displayName.Some? && body.photoURL.Some?
    requires uid in docs && k in docs[uid] && k !in ProfileFields
    ensures MergeInto(docs, uid, SyncData(body, now))[k] == docs[uid][k]
  {
  }

  /** A history post of restaurant names keeps the stored names as a prefix, adds every posted
   *  one, introduces no duplicate, and leaves every other field alone. */
  lemma HistoryAppendKeepsHistory(doc: Doc, body: HistoryBody)
    requires NameList(body.restaurantNames).Some?
    ensures var names := NameList(body.restaurantNames).value;
      var updated := ApplyUnions(doc, map["recommendedHistory" := names]);
      var after := updated["recommendedHistory"].items;
      && StoredList(doc, "recommendedHistory") <= after
      && (forall x :: x in names ==> x in after)
      && (NoDuplicates(StoredList(doc, "recommendedHistory")) ==> NoDuplicates(after))
      && (forall f :: f in doc && f != "recommendedHistory" ==> updated[f] == doc[f])
  {
    var names := NameList(body.restaurantNames).value;
    ArrayUnionProperties(StoredList(doc, "recommendedHistory"), names);
  }
}
