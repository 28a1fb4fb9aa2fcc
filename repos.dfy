/** The repository listing route (packages/backend/src/routes/repos.ts): an optional
    case-insensitive filter on name and description, an optional positive limit, and
    the count of what is returned. The GitHub client is a parameter. */
module Repos {
  import opened JsText

  /** The fields of a GitHub repository the route reads or copies. */
  datatype Repo = Repo(id: int, name: string, fullName: string, description: Option<string>,
                       cloneUrl: string, defaultBranch: string)

  /** The route's answer. The mapped fields are copied one for one, so the listed repos
      are the kept ones themselves. */
  datatype Reply = Unauthorized | FetchFailed | Listed(count: nat, repos: seq<Repo>)

  /** `limitStr ? parseInt(limitStr, 10) : undefined` followed by `limit && limit > 0`:
      the limit in force, if any. */
  function Limit(limitStr: Option<string>): (r: Option<nat>)
    ensures r.Some? <==> Truthy(limitStr) && ParseInt(limitStr.value).Some? && ParseInt(limitStr.value).value > 0
    ensures r.Some? ==> r.value > 0 && r.value as int == ParseInt(limitStr.value).value
  {
    if !Truthy(limitStr) then None
    else match ParseInt(limitStr.value)
      case None => None
      case Some(n) => if n > 0 then Some(n as nat) else None
  }

  /** The filter test: the lower-cased name contains the lower-cased filter, or the
      description is non-empty and its lower-cased text does. */
  predicate Matches(repo: Repo, filter: string) {
    Includes(ToLower(repo.name), ToLower(filter))
    || (Truthy(repo.description) && Includes(ToLower(repo.description.value), ToLower(filter)))
  }

  /** `repos.filter(...)`. */
  function Filter(repos: seq<Repo>, filter: string): (r: seq<Repo>)
    ensures |r| <= |repos|
    ensures forall i :: 0 <= i < |r| ==> Matches(r[i], filter) && r[i] in repos
  {
    if repos == [] then []
    else
      var last := repos[|repos| - 1];
      Filter(repos[..|repos| - 1], filter) + (if Matches(last, filter) then [last] else [])
  }

  /** `xs` is `ys` with some elements left out, order kept. */
  predicate SubsequenceOf<T(==)>(xs: seq<T>, ys: seq<T>)
    decreases |ys|
  {
    if xs == [] then true
    else if ys == [] then false
    else if xs[|xs| - 1] == ys[|ys| - 1] then SubsequenceOf(xs[..|xs| - 1], ys[..|ys| - 1])
    else SubsequenceOf(xs, ys[..|ys| - 1])
  }

  /** The filtered list keeps the fetched order. */
  lemma {:induction false} FilterIsSubsequence(repos: seq<Repo>, filter: string)
    ensures SubsequenceOf(Filter(repos, filter), repos)
    decreases |repos|
  {
    if repos != [] {
      var init := repos[..|repos| - 1];
      var last := repos[|repos| - 1];
      var before := Filter(init, filter);
      FilterIsSubsequence(init, filter);
      if Matches(last, filter) {
        var r := before + [last];
        assert Filter(repos, filter) == r;
        assert r[..|r| - 1] == before && r[|r| - 1] == last;
      } else {
        assert Filter(repos, filter) == before + [] == before;
        SubsequenceWeaken(before, repos);
      }
    }
  }

  /** A subsequence of the list without its last element is a subsequence of the list. */
  lemma {:induction false} SubsequenceWeaken<T>(xs: seq<T>, ys: seq<T>)
    requires ys != [] && SubsequenceOf(xs, ys[..|ys| - 1])
    ensures SubsequenceOf(xs, ys)
    decreases |ys|, 1
  {
    if xs != [] && xs[|xs| - 1] == ys[|ys| - 1] {
      SubsequenceInit(xs, ys[..|ys| - 1]);
    }
  }

  /** Dropping the last element of a subsequence keeps it a subsequence. */
  lemma {:induction false} SubsequenceInit<T>(xs: seq<T>, ys: seq<T>)
    requires xs != [] && SubsequenceOf(xs, ys)
    ensures SubsequenceOf(xs[..|xs| - 1], ys)
    decreases |ys|, 2
  {
    var init := xs[..|xs| - 1];
    if init != [] {
      assert ys != [];
      if xs[|xs| - 1] == ys[|ys| - 1] {
        SubsequenceWeaken(init, ys);
      } else {
        SubsequenceInit(xs, ys[..|ys| - 1]);
        SubsequenceWeaken(init, ys);
      }
    }
  }

  /** Every prefix of a subsequence is a subsequence. */
  lemma {:induction false} SubsequencePrefix<T>(xs: seq<T>, ys: seq<T>, n: nat)
    requires n <= |xs| && SubsequenceOf(xs, ys)
    ensures SubsequenceOf(xs[..n], ys)
    decreases |xs| - n
  {
    if n < |xs| {
      SubsequencePrefix(xs, ys, n + 1);
      assert xs[..n + 1][..n] == xs[..n];
      SubsequenceInit(xs[..n + 1], ys);
    } else {
      assert xs[..n] == xs;
    }
  }

  /** The repo is kept exactly when it matches. */
  lemma {:induction false} FilterKeepsMatches(repos: seq<Repo>, filter: string, repo: Repo)
    ensures repo in Filter(repos, filter) <==> repo in repos && Matches(repo, filter)
    decreases |repos|
  {
    if repos != [] {
      var init := repos[..|repos| - 1];
      FilterKeepsMatches(init, filter, repo);
      assert repos == init + [repos[|repos| - 1]];
    }
  }

  /** The filtered list, cut to the limit when it is longer. */
  function Kept(fetched: seq<Repo>, filter: string, limit: Option<nat>): (r: seq<Repo>)
    ensures SubsequenceOf(r, fetched)
    ensures forall i :: 0 <= i < |r| ==> Matches(r[i], filter)
    ensures limit.Some? ==> |r| <= limit.value
    ensures limit.None? ==> r == Filter(fetched, filter)
    ensures limit.Some? && |Filter(fetched, filter)| <= limit.value ==> r == Filter(fetched, filter)
    ensures limit.Some? && |Filter(fetched, filter)| > limit.value ==> |r| == limit.value
    ensures r == Filter(fetched, filter)[..|r|]
  {
    var all := Filter(fetched, filter);
    FilterIsSubsequence(fetched, filter);
    if limit.Some? && |all| > limit.value then
      SubsequencePrefix(all, fetched, limit.value);
      all[..limit.value]
    else
      all
  }

  /** The GET `/allRepos` handler. `fetch` is the GitHub client, taking the limit it is
      asked to forward and returning `None` when it throws. */
  function ListRepos(authorized: bool, filter: Option<string>, limitStr: Option<string>,
                     fetch: Option<nat> -> Option<seq<Repo>>): (r: Reply)
    ensures !authorized <==> r == Unauthorized
    ensures authorized && fetch(if Truthy(filter) then None else Limit(limitStr)).None? <==> r == FetchFailed
    ensures r.Listed? ==> r.count == |r.repos|
    ensures r.Listed? && !Truthy(filter) ==> r.repos == fetch(Limit(limitStr)).value
    ensures r.Listed? && Truthy(filter) ==> r.repos == Kept(fetch(None).value, filter.value, Limit(limitStr))
  {
    if !authorized then Unauthorized
    else
      var forwarded := if Truthy(filter) then None else Limit(limitStr);
      match fetch(forwarded)
      case None => FetchFailed
      case Some(fetched) =>
        var kept := if Truthy(filter) then Kept(fetched, filter.value, Limit(limitStr)) else fetched;
        Listed(|kept|, kept)
  }
}
