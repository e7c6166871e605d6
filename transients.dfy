/** WordPress transients as the plugin uses them: a key-value store whose
    entries expire, the three families of keys the plugin writes, and the
    values it stores under each (github-plugin-installer-and-updater.php,
    `get_self_update_cache_key`, `get_repo_cache_key`, `get_notice_key`). */
module Transients {
  import opened Platform
  import opened Strings

  /** What the self-update lookup resolves: `array( 'version', 'package', 'homepage' )`. */
  datatype RemoteInfo = RemoteInfo(version: string, package: string, homepage: string)

  /** A notice kept for the next page load: `array( 'message', 'type' )`. */
  datatype Notice = Notice(message: string, kind: string)

  /** One repository of the account listing. */
  datatype RepositoryEntry = RepositoryEntry(fullName: string, htmlUrl: string, defaultBranch: string)

  datatype TransientValue =
    | RemoteMeta(info: RemoteInfo)
    | NoticeValue(notice: Notice)
    | RepositoryList(repositories: seq<RepositoryEntry>)

  /** A stored value and the time (in seconds) after which it has expired. */
  datatype Entry = Entry(value: TransientValue, expiresAt: int)

  const MinuteInSeconds := 60
  const HourInSeconds := 3600

  /** Lifetimes of the three kinds of entries. */
  const SelfUpdateTtl := 5 * MinuteInSeconds
  const NoticeTtl := MinuteInSeconds
  const RepositoryTtl := HourInSeconds

  const SelfUpdatePrefix := "github_plugin_installer_self_update_"
  const NoticePrefix := "github_plugin_installer_and_updater_notice_"
  const RepositoryPrefix := "bokun_github_repos_"

  /** `get_self_update_cache_key`. The source hashes `url|branch` with md5; the
      model keeps the hashed string itself, so two keys are equal exactly when
      md5 would be given the same string. */
  function SelfUpdateCacheKey(url: string, branch: string): string {
    SelfUpdatePrefix + url + "|" + branch
  }

  /** `get_repo_cache_key`, with the md5 of the token kept as the token itself. */
  function RepositoryCacheKey(token: string): string {
    RepositoryPrefix + token
  }

  /** `get_notice_key`: one notice slot per user. */
  function NoticeKey(userId: nat): string {
    NoticePrefix + NatToString(userId)
  }

  /** As long as the URL holds no `|`, distinct (URL, branch) pairs get
      distinct self-update keys. */
  lemma SelfUpdateKeyInjective(u1: string, b1: string, u2: string, b2: string)
    requires '|' !in u1 && '|' !in u2
    ensures SelfUpdateCacheKey(u1, b1) == SelfUpdateCacheKey(u2, b2) <==> u1 == u2 && b1 == b2
  {
    if SelfUpdateCacheKey(u1, b1) == SelfUpdateCacheKey(u2, b2) {
      var t1 := u1 + "|" + b1;
      var t2 := u2 + "|" + b2;
      assert SelfUpdateCacheKey(u1, b1) == SelfUpdatePrefix + t1;
      assert SelfUpdateCacheKey(u2, b2) == SelfUpdatePrefix + t2;
      assert t1 == t2 by {
        assert t1 == SelfUpdateCacheKey(u1, b1)[|SelfUpdatePrefix|..];
        assert t2 == SelfUpdateCacheKey(u2, b2)[|SelfUpdatePrefix|..];
      }
      SplitAtFirst(u1, '|', b1);
      SplitAtFirst(u2, '|', b2);
      assert t1 == u1 + ['|'] + b1 && t2 == u2 + ['|'] + b2;
      assert u1 == Split(t1, '|')[0] == Split(t2, '|')[0] == u2;
      assert u1 == t1[..|u1|] && u2 == t2[..|u2|];
      assert b1 == t1[|u1| + 1..] && b2 == t2[|u2| + 1..];
    }
  }

  /** With a `|` in the URL, two different settings share the key: the hash
      input `url|branch` does not say where the URL ends. */
  lemma SelfUpdateKeyAmbiguous()
    ensures SelfUpdateCacheKey("https://github.com/o/r|x", "y") == SelfUpdateCacheKey("https://github.com/o/r", "x|y")
  {
  }

  /** The three key families never overlap. */
  lemma PrefixesDisjoint(k: string)
    ensures !(HasPrefix(k, SelfUpdatePrefix) && HasPrefix(k, NoticePrefix))
    ensures !(HasPrefix(k, SelfUpdatePrefix) && HasPrefix(k, RepositoryPrefix))
    ensures !(HasPrefix(k, NoticePrefix) && HasPrefix(k, RepositoryPrefix))
  {
    DifferentPrefixes(k, SelfUpdatePrefix, NoticePrefix, 24);
    DifferentPrefixes(k, SelfUpdatePrefix, RepositoryPrefix, 0);
    DifferentPrefixes(k, NoticePrefix, RepositoryPrefix, 0);
  }

  lemma DifferentPrefixes(k: string, a: string, b: string, i: nat)
    requires i < |a| && i < |b| && a[i] != b[i]
    ensures !(HasPrefix(k, a) && HasPrefix(k, b))
  {
  }

  /** The plugin stores under each key family only values of one kind. */
  ghost predicate WellTyped(entries: map<string, Entry>) {
    forall k :: k in entries ==>
      (HasPrefix(k, SelfUpdatePrefix) ==> entries[k].value.RemoteMeta?) &&
      (HasPrefix(k, NoticePrefix) ==> entries[k].value.NoticeValue?) &&
      (HasPrefix(k, RepositoryPrefix) ==> entries[k].value.RepositoryList?)
  }

  /** `get_transient( $key )`: the value, unless it is missing or its time
      has passed (WordPress treats an entry as expired once its timeout is
      strictly before the current time). */
  function LookupIn(entries: map<string, Entry>, key: string, now: int): (r: Option<TransientValue>)
    ensures r.Some? <==> key in entries && now <= entries[key].expiresAt
    ensures r.Some? ==> r.value == entries[key].value
  {
    if key in entries && !(entries[key].expiresAt < now) then Some(entries[key].value) else None
  }

  /** `set_transient( $key, $value, $ttl )` at time `now`. */
  function StoreIn(entries: map<string, Entry>, key: string, value: TransientValue, ttl: nat, now: int): map<string, Entry> {
    entries[key := Entry(value, now + ttl)]
  }

  /** A stored value is returned until its lifetime is over, and never after;
      other keys are not affected. */
  lemma LookupAfterStore(entries: map<string, Entry>, key: string, value: TransientValue, ttl: nat, now: int, later: int, other: string)
    requires other != key
    ensures LookupIn(StoreIn(entries, key, value, ttl, now), key, later) == if later <= now + ttl then Some(value) else None
    ensures LookupIn(StoreIn(entries, key, value, ttl, now), other, later) == LookupIn(entries, other, later)
  {
  }

  /** Storing a value of the right kind under one of the plugin's keys
      keeps the store well typed. */
  lemma StoreKeepsWellTyped(entries: map<string, Entry>, key: string, value: TransientValue, ttl: nat, now: int)
    requires WellTyped(entries)
    requires HasPrefix(key, SelfUpdatePrefix) ==> value.RemoteMeta?
    requires HasPrefix(key, NoticePrefix) ==> value.NoticeValue?
    requires HasPrefix(key, RepositoryPrefix) ==> value.RepositoryList?
    ensures WellTyped(StoreIn(entries, key, value, ttl, now))
  {
  }

  lemma SelfUpdateKeyFamily(url: string, branch: string)
    ensures HasPrefix(SelfUpdateCacheKey(url, branch), SelfUpdatePrefix)
    ensures !HasPrefix(SelfUpdateCacheKey(url, branch), NoticePrefix)
    ensures !HasPrefix(SelfUpdateCacheKey(url, branch), RepositoryPrefix)
  {
    var k := SelfUpdateCacheKey(url, branch);
    assert k[..|SelfUpdatePrefix|] == SelfUpdatePrefix;
    PrefixesDisjoint(k);
  }

  lemma NoticeKeyFamily(userId: nat)
    ensures HasPrefix(NoticeKey(userId), NoticePrefix)
    ensures !HasPrefix(NoticeKey(userId), SelfUpdatePrefix)
    ensures !HasPrefix(NoticeKey(userId), RepositoryPrefix)
  {
    var k := NoticeKey(userId);
    assert k[..|NoticePrefix|] == NoticePrefix;
    PrefixesDisjoint(k);
  }

  lemma RepositoryKeyFamily(token: string)
    ensures HasPrefix(RepositoryCacheKey(token), RepositoryPrefix)
    ensures !HasPrefix(RepositoryCacheKey(token), SelfUpdatePrefix)
    ensures !HasPrefix(RepositoryCacheKey(token), NoticePrefix)
  {
    var k := RepositoryCacheKey(token);
    assert k[..|RepositoryPrefix|] == RepositoryPrefix;
    PrefixesDisjoint(k);
  }

  /** The site's transient store, shared by every request. */
  class TransientStore {
    var entries: map<string, Entry>

    constructor(initial: map<string, Entry>)
      ensures entries == initial
    {
      entries := initial;
    }

    /** `get_transient`. */
    function Get(key: string, now: int): Option<TransientValue>
      reads this
    {
      LookupIn(entries, key, now)
    }

    /** `set_transient`. */
    method Set(key: string, value: TransientValue, ttl: nat, now: int)
      modifies this
      ensures entries == StoreIn(old(entries), key, value, ttl, now)
    {
      entries := StoreIn(entries, key, value, ttl, now);
    }

    /** `delete_transient`. */
    method Delete(key: string)
      modifies this
      ensures entries == old(entries) - {key}
    {
      entries := entries - {key};
    }
  }
}
