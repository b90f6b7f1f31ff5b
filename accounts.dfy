/** User profiles (users/models.py): the full-address helper and the receiver that creates a
    profile for every new user. */
module Accounts {
  import opened Common

  /** UserProfile.GENDER_CHOICES. */
  datatype Gender = Male | Female | Other

  function GenderCode(g: Gender): (c: char)
    ensures c in "MFO"
    ensures g == Male <==> c == 'M'
    ensures g == Female <==> c == 'F'
    ensures g == Other <==> c == 'O'
  {
    match g
    case Male => 'M'
    case Female => 'F'
    case Other => 'O'
  }

  lemma GenderCodesDistinct(g: Gender, h: Gender)
    ensures GenderCode(g) == GenderCode(h) ==> g == h
  {
  }

  datatype UserProfile = UserProfile(
    user: nat,
    phoneNumber: Option<string>,
    address: Option<string>,
    city: Option<string>,
    postalCode: Option<string>,
    gender: Option<Gender>,
    bio: Option<string>,
    isNewsletterSubscriber: bool)

  /** `UserProfile.objects.create(user=instance)`: every field at its default. */
  function NewProfile(user: nat): UserProfile {
    UserProfile(user, None, None, None, None, None, None, true)
  }

  /** `filter(None, parts)`: drops the parts that are None or empty. */
  function PresentParts(parts: seq<Option<string>>): (r: seq<string>)
    ensures |r| <= |parts|
  {
    if parts == [] then []
    else (if Truthy(parts[0]) then [parts[0].value] else []) + PresentParts(parts[1..])
  }

  /** `sep.join(parts)`. */
  function Join(parts: seq<string>, sep: string): string {
    if parts == [] then ""
    else if |parts| == 1 then parts[0]
    else parts[0] + sep + Join(parts[1..], sep)
  }

  /** UserProfile.get_full_address. */
  function GetFullAddress(p: UserProfile): string {
    Join(PresentParts([p.address, p.city, p.postalCode]), ", ")
  }

  /** The full address spelled out case by case: the present parts in the order address, city,
      postal code, one ", " between neighbours and none at either end; "" when all are missing. */
  lemma FullAddressCases(p: UserProfile)
    ensures var a, c, z := p.address, p.city, p.postalCode;
      && (!Truthy(a) && !Truthy(c) && !Truthy(z) ==> GetFullAddress(p) == "")
      && (Truthy(a) && !Truthy(c) && !Truthy(z) ==> GetFullAddress(p) == a.value)
      && (!Truthy(a) && Truthy(c) && !Truthy(z) ==> GetFullAddress(p) == c.value)
      && (!Truthy(a) && !Truthy(c) && Truthy(z) ==> GetFullAddress(p) == z.value)
      && (Truthy(a) && Truthy(c) && !Truthy(z) ==> GetFullAddress(p) == a.value + ", " + c.value)
      && (Truthy(a) && !Truthy(c) && Truthy(z) ==> GetFullAddress(p) == a.value + ", " + z.value)
      && (!Truthy(a) && Truthy(c) && Truthy(z) ==> GetFullAddress(p) == c.value + ", " + z.value)
      && (Truthy(a) && Truthy(c) && Truthy(z) ==> GetFullAddress(p) == a.value + ", " + c.value + ", " + z.value)
  {
    PresentPartsOfThree(p.address, p.city, p.postalCode);
    JoinOfAtMostThree(PresentParts([p.address, p.city, p.postalCode]), ", ");
  }

  /** The part a nullable field contributes to `filter(None, ...)`. */
  function Part(o: Option<string>): seq<string> {
    if Truthy(o) then [o.value] else []
  }

  lemma PresentPartsOfThree(a: Option<string>, c: Option<string>, z: Option<string>)
    ensures PresentParts([a, c, z]) == Part(a) + Part(c) + Part(z)
  {
    var tail: seq<Option<string>> := [];
    var l1 := [z] + tail;
    var l2 := [c] + l1;
    var l3 := [a] + l2;
    PresentPartsCons(z, tail);
    PresentPartsCons(c, l1);
    PresentPartsCons(a, l2);
    assert l3 == [a, c, z];
  }

  lemma PresentPartsCons(x: Option<string>, rest: seq<Option<string>>)
    ensures PresentParts([x] + rest) == Part(x) + PresentParts(rest)
  {
    assert ([x] + rest)[0] == x && ([x] + rest)[1..] == rest;
  }

  lemma JoinOfAtMostThree(parts: seq<string>, sep: string)
    requires |parts| <= 3
    ensures |parts| == 0 ==> Join(parts, sep) == ""
    ensures |parts| == 1 ==> Join(parts, sep) == parts[0]
    ensures |parts| == 2 ==> Join(parts, sep) == parts[0] + sep + parts[1]
    ensures |parts| == 3 ==> Join(parts, sep) == parts[0] + sep + parts[1] + sep + parts[2]
  {
    if |parts| == 2 {
      assert parts[1..] == [parts[1]];
    } else if |parts| == 3 {
      assert parts[1..] == [parts[1], parts[2]];
      assert parts[1..][1..] == [parts[2]];
      assert Join(parts[1..], sep) == parts[1] + sep + parts[2];
    }
  }

  /** The users table and the profiles table, which the post_save receiver keeps in step. */
  class UserDirectory {
    var users: set<nat>
    var profiles: map<nat, UserProfile>

    /** Exactly one profile per user, and it belongs to that user. */
    ghost predicate Valid()
      reads this
    {
      profiles.Keys == users && forall u :: u in profiles ==> profiles[u].user == u
    }

    constructor ()
      ensures Valid() && users == {} && profiles == map[]
    {
      users := {};
      profiles := map[];
    }

    /** Saving a User row: create_user_profile adds a default profile when the row is new
        (created), and does nothing on later saves. */
    method SaveUser(u: nat) returns (created: bool)
      requires Valid()
      modifies this
      ensures Valid()
      ensures created <==> u !in old(users)
      ensures users == old(users) + {u}
      ensures profiles == if created then old(profiles)[u := NewProfile(u)] else old(profiles)
    {
      created := u !in users;
      users := users + {u};
      if created {
        profiles := profiles[u := NewProfile(u)];
      }
    }
  }
}
