/**
 * `ProfileViewModel`: maps loosely typed `users` documents to `ProfileData`
 * records with fixed defaults.
 */
module ProfileViewModel {
  import opened Wrappers
  import opened Firestore

  datatype ProfileData = ProfileData(
    id: string,
    name: string,
    age: int,
    location: string,
    base64Image: Option<string>)

  /** `Long.toInt()`: keeps the low 32 bits, two's complement. */
  function LongToInt(n: int): (r: int)
    ensures -0x8000_0000 <= r <= 0x7FFF_FFFF
    ensures (r - n) % 0x1_0000_0000 == 0
  {
    (n + 0x8000_0000) % 0x1_0000_0000 - 0x8000_0000
  }

  /** An age that fits in `Int` survives the conversion unchanged. */
  lemma LongToIntInRange(n: int)
    requires -0x8000_0000 <= n <= 0x7FFF_FFFF
    ensures LongToInt(n) == n
  {
  }

  /** The record built for one document, or `None` when a field read throws
      (a field of the wrong type), as inside `mapNotNull`. */
  function ToProfile(doc: Document): (r: Option<ProfileData>)
    ensures r.None? <==>
      || GetString(doc.fields, "username").WrongType?
      || GetLong(doc.fields, "age").WrongType?
      || GetString(doc.fields, "location").WrongType?
      || GetString(doc.fields, "profileImage").WrongType?
  {
    var name := GetString(doc.fields, "username");
    var age := GetLong(doc.fields, "age");
    var location := GetString(doc.fields, "location");
    var image := GetString(doc.fields, "profileImage");
    if name.WrongType? || age.WrongType? || location.WrongType? || image.WrongType? then None
    else Some(ProfileData(
      id := doc.id,
      name := name.OrElse("Anonymous"),
      age := if age.Present? then LongToInt(age.v) else 0,
      location := location.OrElse("Unknown"),
      base64Image := if image.Present? then Some(image.v) else None))
  }

  /** The defaults: a readable document with none of the profile fields
      gives "Anonymous", age 0, "Unknown" and no picture; fields that are
      present are taken as stored, a numeric age through `toInt()`. */
  lemma ToProfileDefaults(doc: Document)
    requires ToProfile(doc).Some?
    ensures var p := ToProfile(doc).value;
      var f := doc.fields;
      && p.id == doc.id
      && p.name == (if "username" in f && f["username"].StringField? then f["username"].s else "Anonymous")
      && p.location == (if "location" in f && f["location"].StringField? then f["location"].s else "Unknown")
      && p.base64Image == (if "profileImage" in f && f["profileImage"].StringField? then Some(f["profileImage"].s) else None)
      && p.age == (if "age" in f && f["age"].LongField? then LongToInt(f["age"].n)
                   else if "age" in f && f["age"].DoubleField? then LongToInt(DoubleToLong(f["age"].d))
                   else 0)
  {
  }

  /** A fractional age stored as a double is kept, rounded toward zero. */
  lemma DoubleAgeKept()
    ensures ToProfile(Document("u1", map["age" := DoubleField(25.7)]))
         == Some(ProfileData("u1", "Anonymous", 25, "Unknown", None))
  {
    assert DoubleToLong(25.7) == 25;
  }

  /** `snapshot.documents.mapNotNull { ... }`. */
  function ToProfiles(docs: seq<Document>): (r: seq<ProfileData>)
    ensures |r| <= |docs|
  {
    if docs == [] then []
    else
      var rest := ToProfiles(docs[1..]);
      match ToProfile(docs[0])
      case Some(p) => [p] + rest
      case None => rest
  }

  /** Mapping keeps document order: it distributes over concatenation. */
  lemma {:induction false} ToProfilesAppend(a: seq<Document>, b: seq<Document>)
    ensures ToProfiles(a + b) == ToProfiles(a) + ToProfiles(b)
  {
    if a == [] {
      assert a + b == b;
    } else {
      assert (a + b)[0] == a[0] && (a + b)[1..] == a[1..] + b;
      ToProfilesAppend(a[1..], b);
    }
  }

  /** A record is listed exactly when some document maps to it without
      throwing. */
  lemma {:induction false} ToProfilesMembership(docs: seq<Document>, p: ProfileData)
    ensures p in ToProfiles(docs) <==> exists i :: 0 <= i < |docs| && ToProfile(docs[i]) == Some(p)
  {
    if docs != [] {
      ToProfilesMembership(docs[1..], p);
      if exists i :: 0 <= i < |docs| && ToProfile(docs[i]) == Some(p) {
        var i :| 0 <= i < |docs| && ToProfile(docs[i]) == Some(p);
        if i > 0 {
          assert docs[1..][i - 1] == docs[i];
        }
      }
      if p in ToProfiles(docs[1..]) {
        var i :| 0 <= i < |docs[1..]| && ToProfile(docs[1..][i]) == Some(p);
        assert docs[i + 1] == docs[1..][i];
      }
    }
  }

  class ProfileViewModel {
    var profiles: seq<ProfileData>

    constructor ()
      ensures profiles == []
    {
      profiles := [];
    }

    /** End of `fetchProfiles`: `Some(documents)` when the query succeeded,
        `None` when it threw. */
    method OnFetchResult(result: Option<seq<Document>>)
      modifies this
      ensures result.Some? ==> profiles == ToProfiles(result.value)
      ensures result.None? ==> profiles == old(profiles)
    {
      if result.Some? {
        profiles := ToProfiles(result.value);
      }
    }
  }
}

/**
 * `LikedProfilesViewModel`: the liked list only grows, by appending.
 */
module LikeProfileViewModel {
  import opened ProfileViewModel

  class LikedProfilesViewModel {
    var likedProfiles: seq<ProfileData>

    constructor ()
      ensures likedProfiles == []
    {
      likedProfiles := [];
    }

    /** `addLikedProfile`: the new profile goes last; earlier entries stay,
        in order; nothing is de-duplicated. */
    method AddLikedProfile(profile: ProfileData)
      modifies this
      ensures |likedProfiles| == |old(likedProfiles)| + 1
      ensures likedProfiles[..|old(likedProfiles)|] == old(likedProfiles)
      ensures likedProfiles[|old(likedProfiles)|] == profile
      ensures multiset(likedProfiles)[profile] == multiset(old(likedProfiles))[profile] + 1
    {
      likedProfiles := likedProfiles + [profile];
      assert likedProfiles[..|old(likedProfiles)|] == old(likedProfiles);
    }
  }
}
