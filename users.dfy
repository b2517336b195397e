/**
 * User lookup (backend/routes/users.py): the contact search and the
 * lookup by phone number, over the users table of the Auth module.
 *
 * The search runs `phone LIKE '%q%' OR name LIKE '%q%'` on SQLite, so the
 * comparison ignores ASCII case, and a `%` or `_` typed into the query acts
 * as a wildcard. Without ORDER BY the rows come back in table order.
 */
module Users {
  import opened Wrappers
  import opened Text
  import opened Auth

  /** The user fields the search and the lookup reply with. */
  datatype UserSummary = UserSummary(id: UserId, name: string, phone: string, avatar: string, isOnline: bool)

  function SummaryOf(u: User): UserSummary
  {
    UserSummary(u.id, u.name, u.phone, u.avatar, u.isOnline)
  }

  // ------------------------------------------------------------- SQL LIKE

  /** SQLite's LIKE: `%` matches any run, `_` any one character, anything else itself up to ASCII case. */
  predicate Like(s: string, p: string)
    decreases |p|, |s|
  {
    if p == [] then s == []
    else if p[0] == '%' then Like(s, p[1..]) || (s != [] && Like(s[1..], p))
    else s != [] && (p[0] == '_' || ToLowerChar(s[0]) == ToLowerChar(p[0])) && Like(s[1..], p[1..])
  }

  /** A pattern without wildcards. */
  predicate Literal(q: string)
  {
    '%' !in q && '_' !in q
  }

  /** `t` is a prefix of `s` up to ASCII case. */
  predicate PrefixIgnoringCase(t: string, s: string)
  {
    |t| <= |s| && ToLower(s[..|t|]) == ToLower(t)
  }

  lemma {:induction false} LikeAnything(s: string)
    ensures Like(s, "%")
    decreases |s|
  {
    if s != [] {
      LikeAnything(s[1..]);
    }
  }

  /** `q%` with a literal `q` matches exactly the strings starting with `q`, up to case. */
  lemma {:induction false} LikePrefix(s: string, q: string)
    requires Literal(q)
    ensures Like(s, q + "%") <==> PrefixIgnoringCase(q, s)
    decreases |q|
  {
    if q == [] {
      assert q + "%" == "%";
      LikeAnything(s);
    } else {
      assert (q + "%")[1..] == q[1..] + "%";
      if s != [] {
        LikePrefix(s[1..], q[1..]);
        if |q| <= |s| {
          assert ToLower(s[..|q|]) == [ToLowerChar(s[0])] + ToLower(s[1..][..|q| - 1]);
          assert ToLower(q) == [ToLowerChar(q[0])] + ToLower(q[1..]);
        }
      }
    }
  }

  /** A leading `%` lets the rest of the pattern match any suffix. */
  lemma {:induction false} LikeSuffix(s: string, r: string)
    ensures Like(s, "%" + r) <==> exists k :: 0 <= k <= |s| && Like(s[k..], r)
    decreases |s|
  {
    assert ("%" + r)[1..] == r;
    if s == [] {
      assert s[0..] == s;
    } else {
      LikeSuffix(s[1..], r);
      if Like(s[1..], "%" + r) {
        var k :| 0 <= k <= |s[1..]| && Like(s[1..][k..], r);
        assert s[1..][k..] == s[k + 1..];
      }
      if exists k :: 0 <= k <= |s| && Like(s[k..], r) {
        var k :| 0 <= k <= |s| && Like(s[k..], r);
        if k == 0 {
          assert s[0..] == s;
        } else {
          assert s[1..][k - 1..] == s[k..];
        }
      } else {
        assert !Like(s[0..], r);
        assert s[0..] == s;
      }
    }
  }

  /** `s` contains `q` at some position, up to ASCII case. */
  predicate ContainsIgnoringCase(s: string, q: string)
  {
    exists k :: 0 <= k <= |s| && PrefixIgnoringCase(q, s[k..])
  }

  /** For a query without wildcards, `LIKE '%q%'` is a case-insensitive substring test. */
  lemma LikeIsSubstring(s: string, q: string)
    requires Literal(q)
    ensures Like(s, "%" + q + "%") <==> ContainsIgnoringCase(s, q)
  {
    assert "%" + q + "%" == "%" + (q + "%");
    LikeSuffix(s, q + "%");
    forall k | 0 <= k <= |s|
      ensures Like(s[k..], q + "%") <==> PrefixIgnoringCase(q, s[k..])
    {
      LikePrefix(s[k..], q);
    }
  }

  /** A query of three underscores gets past the length check and matches every name of three characters or more. */
  lemma UnderscoresMatchAnyName(s: string)
    requires |s| >= 3
    ensures Like(s, "%" + "___" + "%")
  {
    assert "%" + "___" + "%" == "%" + ("___" + "%");
    LikeAnything(s[3..]);
    assert ("___" + "%")[1..] == "__%" && ("__%")[1..] == "_%" && ("_%")[1..] == "%";
    assert Like(s[2..], "_%") by { assert s[2..][1..] == s[3..]; }
    assert Like(s[1..], "__%") by { assert s[1..][1..] == s[2..]; }
    assert Like(s, "___%");
    LikeSuffix(s, "___" + "%");
    assert s[0..] == s;
  }

  // ---------------------------------------------------------------- search

  /** The search's filter: the phone or the name is like `%q%`, and the user is not the one searching. */
  predicate Matches(u: User, me: UserId, q: string)
  {
    (Like(u.phone, "%" + q + "%") || Like(u.name, "%" + q + "%")) && u.id != me
  }

  /** The matching users in table order. */
  function Matching(users: seq<User>, me: UserId, q: string): (r: seq<User>)
    ensures |r| <= |users|
    ensures forall u :: u in r <==> u in users && Matches(u, me, q)
  {
    if users == [] then []
    else (if Matches(users[0], me, q) then [users[0]] else []) + Matching(users[1..], me, q)
  }

  function Take<T>(s: seq<T>, n: nat): (r: seq<T>)
    ensures |r| <= n
  {
    if |s| <= n then s else s[..n]
  }

  /**
   * search_users: the stripped query, when it has at least 3 characters,
   * selects at most 10 matching users; `queryFails` is a database error.
   */
  function Search(users: seq<User>, me: UserId, q: Option<string>, queryFails: bool): (r: Result<seq<UserSummary>, HttpError>)
    ensures |Strip(q.GetOr(""))| < 3 ==> r == Success([])
    ensures |Strip(q.GetOr(""))| >= 3 ==> (r.Failure? <==> queryFails)
    ensures r.Failure? ==> r.error == HttpError(500, "Search failed")
    ensures r.Success? ==> |r.value| <= 10
  {
    var query := Strip(q.GetOr(""));
    if |query| < 3 then Success([])
    else if queryFails then Failure(HttpError(500, "Search failed"))
    else
      var found := Take(Matching(users, me, query), 10);
      Success(seq(|found|, i requires 0 <= i < |found| => SummaryOf(found[i])))
  }

  /**
   * Search replies with no more than ten users, never the one searching, each
   * matching the stripped query; when fewer than ten come back, they are all
   * the matches. A query under three characters finds no one.
   */
  lemma SearchResults(users: seq<User>, me: UserId, q: Option<string>)
    ensures |Strip(q.GetOr(""))| < 3 ==> Search(users, me, q, false) == Success([])
    ensures var res := Search(users, me, q, false);
      && res.Success?
      && |res.value| <= 10
      && (forall s :: s in res.value ==> s.id != me)
      && (forall s :: s in res.value ==> exists u :: u in users && SummaryOf(u) == s && Matches(u, me, Strip(q.GetOr(""))))
      && (|res.value| < 10 && |Strip(q.GetOr(""))| >= 3 ==>
            forall u :: u in users && Matches(u, me, Strip(q.GetOr(""))) ==> SummaryOf(u) in res.value)
  {
    var query := Strip(q.GetOr(""));
    if |query| >= 3 {
      var all := Matching(users, me, query);
      var found := Take(all, 10);
      var res := Search(users, me, q, false).value;
      assert |res| == |found|;
      forall s | s in res
        ensures s.id != me
        ensures exists u :: u in users && SummaryOf(u) == s && Matches(u, me, query)
      {
        var i :| 0 <= i < |res| && res[i] == s;
        assert found[i] in all;
      }
      if |res| < 10 {
        assert found == all;
        forall u | u in users && Matches(u, me, query)
          ensures SummaryOf(u) in res
        {
          var i :| 0 <= i < |all| && all[i] == u;
          assert res[i] == SummaryOf(u);
        }
      }
    }
  }

  // --------------------------------------------------------- lookup by phone

  /** get_user_by_phone: the user with the phone, unless there is none or it is the one asking. */
  function UserByPhone(users: seq<User>, me: UserId, phone: string, queryFails: bool): (r: Result<UserSummary, HttpError>)
    ensures queryFails ==> r == Failure(HttpError(500, "Database error"))
    ensures !queryFails ==>
      (r == Failure(HttpError(404, "User not found")) <==>
        FindByPhone(users, phone).None? || users[FindByPhone(users, phone).value].id == me)
    ensures r.Success? ==> r.value.phone == phone && r.value.id != me && exists u :: u in users && SummaryOf(u) == r.value
  {
    if queryFails then Failure(HttpError(500, "Database error"))
    else
      match FindByPhone(users, phone)
      case None => Failure(HttpError(404, "User not found"))
      case Some(i) =>
        if users[i].id == me then Failure(HttpError(404, "User not found"))
        else Success(SummaryOf(users[i]))
  }

  /** With phones unique, the lookup finds every other user by their own phone. */
  lemma LookupFindsOthers(users: seq<User>, me: UserId, i: nat)
    requires PhonesUnique(users) && i < |users| && users[i].id != me
    ensures UserByPhone(users, me, users[i].phone, false) == Success(SummaryOf(users[i]))
  {
    assert FindByPhone(users, users[i].phone) == Some(i);
  }
}
