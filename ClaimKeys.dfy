/** The identity of a claim in the page's anti-duplicate cache: the string
    `platform_username_type_count`, built from the trimmed, lower-cased
    username typed into the page. */
module ClaimKeys {
  import opened Wrappers
  import opened Text

  /** The three kinds of mission a visitor can pick. */
  datatype MissionType = Followers | Likes | Comments

  /** The name a mission type has in keys and in the `missions` record. */
  function TypeName(t: MissionType): (r: string)
    ensures '_' !in r && r != []
  {
    match t
    case Followers => "followers"
    case Likes => "likes"
    case Comments => "comments"
  }

  /** `input.value.trim().toLowerCase()`. */
  function NormalizeUsername(raw: string): string {
    ToLower(Trim(raw))
  }

  /** `${platform}_${username}_${type}_${count}`. */
  function ClaimKey(platform: string, username: string, t: MissionType, count: nat): string {
    TypePrefix(platform, username, t) + NatToString(count)
  }

  /** `${platform}_${username}_${type}_`: the prefix the usage counter and the
      earliest-timestamp search look for. */
  function TypePrefix(platform: string, username: string, t: MissionType): string {
    platform + "_" + username + "_" + TypeName(t) + "_"
  }

  /** The number a key ends in: `parseInt(key.split('_').pop())`. */
  function KeyUnits(key: string): Option<nat> {
    ParseInt(LastSegment(key, '_'))
  }

  /** The marker the expiry sweep looks for with `key.includes('_followers_')`. */
  const FollowersMarker: string := "_followers_"

  // ---------------------------------------------------------------------------

  /** A key starts with its type prefix and reads back the count it was built with. */
  lemma KeyAnatomy(platform: string, username: string, t: MissionType, count: nat)
    ensures StartsWith(ClaimKey(platform, username, t, count), TypePrefix(platform, username, t))
    ensures KeyUnits(ClaimKey(platform, username, t, count)) == Some(count)
  {
    var head := platform + "_" + username + "_" + TypeName(t);
    var digits := NatToString(count);
    assert ClaimKey(platform, username, t, count) == head + ['_'] + digits;
    assert '_' !in digits;
    LastSegmentAfter(head, '_', digits);
    ParseIntOfNatToString(count);
    var k := ClaimKey(platform, username, t, count);
    var p := TypePrefix(platform, username, t);
    assert k == p + digits;
    assert k[..|p|] == p;
  }

  /** Two keys for the same user and type differ exactly when their counts do. */
  lemma KeyCountDetermined(platform: string, username: string, t: MissionType, c1: nat, c2: nat)
    ensures ClaimKey(platform, username, t, c1) == ClaimKey(platform, username, t, c2) <==> c1 == c2
  {
    KeyAnatomy(platform, username, t, c1);
    KeyAnatomy(platform, username, t, c2);
  }

  /** Keys of one user for two different mission types never coincide. */
  lemma KeysOfTypesDiffer(platform: string, username: string, t1: MissionType, t2: MissionType, c1: nat, c2: nat)
    requires t1 != t2
    ensures ClaimKey(platform, username, t1, c1) != ClaimKey(platform, username, t2, c2)
  {
    var head := platform + "_" + username + "_";
    var i := |head|;
    assert ClaimKey(platform, username, t1, c1) == head + (TypeName(t1) + "_" + NatToString(c1));
    assert ClaimKey(platform, username, t2, c2) == head + (TypeName(t2) + "_" + NatToString(c2));
    assert ClaimKey(platform, username, t1, c1)[i] == TypeName(t1)[0];
    assert ClaimKey(platform, username, t2, c2)[i] == TypeName(t2)[0];
  }

  /** Every followers key carries the marker the sweep looks for. */
  lemma FollowersKeyMarked(platform: string, username: string, count: nat)
    ensures Contains(ClaimKey(platform, username, Followers, count), FollowersMarker)
  {
    var k := ClaimKey(platform, username, Followers, count);
    assert k == (platform + "_" + username) + FollowersMarker + NatToString(count);
    ContainsInfix(platform + "_" + username, FollowersMarker, NatToString(count));
  }

  /** Keys are matched by prefix, so the followers claims of a user whose name
      is `u_followers_v` fall under the prefix of user `u`, with their count. */
  lemma PrefixCapturesOtherUser(platform: string, u: string, v: string, count: nat)
    ensures StartsWith(ClaimKey(platform, u + FollowersMarker + v, Followers, count), TypePrefix(platform, u, Followers))
    ensures KeyUnits(ClaimKey(platform, u + FollowersMarker + v, Followers, count)) == Some(count)
  {
    var p := TypePrefix(platform, u, Followers);
    var k := ClaimKey(platform, u + FollowersMarker + v, Followers, count);
    assert k == p + (v + "_followers_" + NatToString(count));
    assert k[..|p|] == p;
    KeyAnatomy(platform, u + FollowersMarker + v, Followers, count);
  }

  /** Usernames that differ only in letter case give the same key. */
  lemma NormalizeIgnoresCase(s: string, t: string)
    requires ToLower(s) == ToLower(t)
    ensures NormalizeUsername(s) == NormalizeUsername(t)
  {
    TrimLower(s);
    TrimLower(t);
  }

  /** Usernames that differ only in surrounding white space give the same key. */
  lemma NormalizeIgnoresPadding(pre: string, s: string, post: string)
    requires AllSpace(pre) && AllSpace(post)
    ensures NormalizeUsername(pre + s + post) == NormalizeUsername(s)
  {
    TrimIgnoresPadding(pre, s, post);
  }

  /** `"Bob "` and `"bob"` claim the same key. */
  lemma BobIsBob()
    ensures ClaimKey("instagram", NormalizeUsername("Bob "), Followers, 10)
         == ClaimKey("instagram", NormalizeUsername("bob"), Followers, 10)
  {
    NormalizeIgnoresPadding("", "Bob", " ");
    assert "" + "Bob" + " " == "Bob ";
    assert ToLower("Bob") == ToLower("bob");
    NormalizeIgnoresCase("Bob", "bob");
  }
}
