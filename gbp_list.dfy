/** The account and location lister: one entry per Business Profile account,
    each with its locations, the ids parsed from resource names by `/` split. */
module GbpList {
  import Js

  // ---------------------------------------------------------------------
  // Resource names
  // ---------------------------------------------------------------------

  /** `s.split(sep)` for a one-character separator: the pieces between
      separators, empty ones included. */
  function Split(s: string, sep: char): (parts: seq<string>)
    ensures |parts| >= 1
    decreases |s|
  {
    if s == [] then [""]
    else
      var rest := Split(s[1..], sep);
      if s[0] == sep then [""] + rest else [[s[0]] + rest[0]] + rest[1..]
  }

  /** No piece of a split holds the separator. */
  lemma {:induction false} SplitPieces(s: string, sep: char)
    ensures forall k :: 0 <= k < |Split(s, sep)| ==> sep !in Split(s, sep)[k]
    decreases |s|
  {
    if s != [] {
      SplitPieces(s[1..], sep);
    }
  }

  /** Splitting loses nothing: joining the pieces gives the input back. */
  lemma {:induction false} JoinSplit(s: string, sep: char)
    ensures Js.Join(Split(s, sep), [sep]) == s
    decreases |s|
  {
    if s != [] {
      var rest := Split(s[1..], sep);
      JoinSplit(s[1..], sep);
      if s[0] == sep {
        assert Split(s, sep)[1..] == rest;
        assert s == [sep] + s[1..];
      } else {
        var parts := Split(s, sep);
        assert parts[1..] == rest[1..];
        if |rest| == 1 {
          assert s == [s[0]] + rest[0];
        } else {
          assert Js.Join(rest, [sep]) == rest[0] + [sep] + Js.Join(rest[1..], [sep]);
          assert s == [s[0]] + s[1..];
        }
      }
    }
  }

  lemma {:induction false} SplitNoSep(p: string, sep: char)
    requires sep !in p
    ensures Split(p, sep) == [p]
    decreases |p|
  {
    if p != [] {
      assert sep !in p[1..];
      SplitNoSep(p[1..], sep);
      assert [p[0]] + p[1..] == p;
    }
  }

  lemma {:induction false} SplitCons(p: string, sep: char, rest: string)
    requires sep !in p
    ensures Split(p + [sep] + rest, sep) == [p] + Split(rest, sep)
    decreases |p|
  {
    var s := p + [sep] + rest;
    if p == [] {
      assert s == [sep] + rest;
      assert s[1..] == rest;
    } else {
      assert s[0] == p[0] && s[1..] == p[1..] + [sep] + rest;
      assert sep !in p[1..];
      SplitCons(p[1..], sep, rest);
      assert [p[0]] + p[1..] == p;
    }
  }

  /** Pieces without the separator come back from a join and split unchanged. */
  lemma {:induction false} SplitJoin(parts: seq<string>, sep: char)
    requires |parts| >= 1
    requires forall k :: 0 <= k < |parts| ==> sep !in parts[k]
    ensures Split(Js.Join(parts, [sep]), sep) == parts
    decreases |parts|
  {
    if |parts| == 1 {
      SplitNoSep(parts[0], sep);
    } else {
      SplitJoin(parts[1..], sep);
      SplitCons(parts[0], sep, Js.Join(parts[1..], [sep]));
      assert [parts[0]] + parts[1..] == parts;
    }
  }

  /** `parts[i]`, undefined past the end. */
  function Segment(parts: seq<string>, i: nat): Js.Option<string>
  {
    if i < |parts| then Js.Some(parts[i]) else Js.None
  }

  /** The resource name of location L of account A. */
  function LocationResource(a: string, l: string): string
  {
    "accounts/" + a + "/locations/" + l
  }

  /** `accounts/{A}/locations/{L}` splits into its four segments. */
  lemma SplitLocationResource(a: string, l: string)
    requires '/' !in a && '/' !in l
    ensures Split(LocationResource(a, l), '/') == ["accounts", a, "locations", l]
  {
    var parts := ["accounts", a, "locations", l];
    assert Js.Join(parts[3..], "/") == l;
    assert Js.Join(parts[2..], "/") == "locations" + "/" + l;
    assert Js.Join(parts[1..], "/") == a + "/" + ("locations" + "/" + l);
    assert Js.Join(parts, "/") == LocationResource(a, l);
    SplitJoin(parts, '/');
  }

  // ---------------------------------------------------------------------
  // Accounts and locations
  // ---------------------------------------------------------------------

  datatype RawAccount = RawAccount(name: Js.Option<string>, accountName: Js.Option<string>)

  datatype RawLocation = RawLocation(name: Js.Option<string>, title: Js.Value, storeCode: Js.Option<string>)

  /** The locations-listing response; an `error` in it is not looked at. */
  datatype LocationsJson = LocationsJson(locations: Js.Option<seq<RawLocation>>)

  datatype AccountsJson = AccountsJson(error: Js.Value, accounts: Js.Option<seq<RawAccount>>)

  /** A location in the output; `storeCode` `None` is `null`. */
  datatype Location = Location(title: Js.Value, locationName: string, accountId: Js.Option<string>,
                               locationId: Js.Option<string>, storeCode: Js.Option<string>)

  datatype Account = Account(accountId: Js.Option<string>, accountName: Js.Option<string>,
                             locations: seq<Location>)

  datatype Body = Error(message: string) | Upstream(json: AccountsJson) | Accounts(accounts: seq<Account>)

  /** The engine's message for calling `split` on a missing location name. */
  const SplitOfUndefined := "Cannot read properties of undefined (reading 'split')"

  /** `a.name?.split("/")[1]` */
  function AccountId(a: RawAccount): Js.Option<string>
  {
    if a.name.Some? then Segment(Split(a.name.value, '/'), 1) else Js.None
  }

  /** The ids of the accounts whose locations are requested, in order. */
  function AccountIds(accts: seq<RawAccount>): (ids: seq<Js.Option<string>>)
    ensures |ids| == |accts|
  {
    seq(|accts|, k requires 0 <= k < |accts| => AccountId(accts[k]))
  }

  /** `a.accountName || a.name` */
  function AccountName(a: RawAccount): Js.Option<string>
  {
    if Js.Truthy(a.accountName) then a.accountName else a.name
  }

  /** One location in the output shape; it throws when the name is missing. */
  function ReshapeLocation(l: RawLocation): (r: Js.Call<Location>)
    ensures r.Threw? <==> l.name.None?
    ensures r.Returned? ==>
      && r.value.title == l.title
      && r.value.locationName == l.name.value
      && r.value.accountId == Segment(Split(l.name.value, '/'), 1)
      && r.value.locationId == Segment(Split(l.name.value, '/'), 3)
      && (r.value.storeCode.Some? <==> Js.Truthy(l.storeCode))
      && (r.value.storeCode.Some? ==> r.value.storeCode == l.storeCode)
  {
    match l.name
    case None => Js.Threw(SplitOfUndefined)
    case Some(name) =>
      var parts := Split(name, '/');
      Js.Returned(Location(l.title, name, Segment(parts, 1), Segment(parts, 3),
                           if Js.Truthy(l.storeCode) then l.storeCode else Js.None))
  }

  /** For a well-formed resource name the two ids are its segments and the
      name is kept unchanged. */
  lemma ReshapeWellFormed(l: RawLocation, a: string, id: string)
    requires '/' !in a && '/' !in id
    requires l.name == Js.Some(LocationResource(a, id))
    ensures ReshapeLocation(l).Returned?
    ensures ReshapeLocation(l).value.accountId == Js.Some(a)
    ensures ReshapeLocation(l).value.locationId == Js.Some(id)
    ensures ReshapeLocation(l).value.locationName == LocationResource(a, id)
  {
    SplitLocationResource(a, id);
  }

  /** `(locJson.locations || []).map(...)`: all of them, in order, or the first throw. */
  function ReshapeLocations(ls: seq<RawLocation>): (r: Js.Call<seq<Location>>)
    ensures r.Returned? <==> forall k :: 0 <= k < |ls| ==> ls[k].name.Some?
    ensures r.Returned? ==>
      (|r.value| == |ls| && forall k :: 0 <= k < |ls| ==> r.value[k] == ReshapeLocation(ls[k]).value)
    ensures r.Threw? ==> r.message == SplitOfUndefined
    decreases |ls|
  {
    if ls == [] then Js.Returned([])
    else match ReshapeLocation(ls[0])
      case Threw(m) => Js.Threw(m)
      case Returned(loc) =>
        match ReshapeLocations(ls[1..])
        case Threw(m) => Js.Threw(m)
        case Returned(rest) => Js.Returned([loc] + rest)
  }

  function UpstreamLocations(j: LocationsJson): seq<RawLocation>
  {
    if j.locations.Some? then j.locations.value else []
  }

  /** The entry for one account: its id, its name, its reshaped locations,
      given the location listing the upstream returns for that id. */
  function Entry(a: RawAccount, locationsFor: Js.Option<string> -> Js.Call<LocationsJson>): Js.Call<Account>
  {
    match locationsFor(AccountId(a))
    case Threw(m) => Js.Threw(m)
    case Returned(j) =>
      match ReshapeLocations(UpstreamLocations(j))
      case Threw(m) => Js.Threw(m)
      case Returned(locs) => Js.Returned(Account(AccountId(a), AccountName(a), locs))
  }

  /** What an account entry holds. */
  lemma EntryShape(a: RawAccount, locationsFor: Js.Option<string> -> Js.Call<LocationsJson>)
    requires Entry(a, locationsFor).Returned?
    ensures var e := Entry(a, locationsFor).value;
      && locationsFor(AccountId(a)).Returned?
      && (a.name.Some? ==> e.accountId == Segment(Split(a.name.value, '/'), 1))
      && (a.name.None? ==> e.accountId.None?)
      && (Js.Truthy(a.accountName) ==> e.accountName == a.accountName)
      && (!Js.Truthy(a.accountName) ==> e.accountName == a.name)
      && var ls := UpstreamLocations(locationsFor(AccountId(a)).value);
         |e.locations| == |ls|
         && (forall k :: 0 <= k < |ls| ==> e.locations[k] == ReshapeLocation(ls[k]).value)
  {
  }

  /** The index of the first account whose entry throws, or the count. */
  function FirstFailure(accts: seq<RawAccount>, locationsFor: Js.Option<string> -> Js.Call<LocationsJson>): (n: nat)
    ensures n <= |accts|
    ensures forall k :: 0 <= k < n ==> Entry(accts[k], locationsFor).Returned?
    ensures n < |accts| ==> Entry(accts[n], locationsFor).Threw?
    decreases |accts|
  {
    if accts == [] then 0
    else if Entry(accts[0], locationsFor).Threw? then 0
    else 1 + FirstFailure(accts[1..], locationsFor)
  }

  /** The first failure is where the entries stop succeeding. */
  lemma {:induction false} FirstFailureAt(accts: seq<RawAccount>, locationsFor: Js.Option<string> -> Js.Call<LocationsJson>, i: nat)
    requires i <= |accts|
    requires forall k :: 0 <= k < i ==> Entry(accts[k], locationsFor).Returned?
    requires i < |accts| ==> Entry(accts[i], locationsFor).Threw?
    ensures FirstFailure(accts, locationsFor) == i
    decreases i
  {
    if i > 0 {
      FirstFailureAt(accts[1..], locationsFor, i - 1);
    }
  }

  /** `accJson.accounts || []` */
  function UpstreamAccounts(j: AccountsJson): seq<RawAccount>
  {
    if j.accounts.Some? then j.accounts.value else []
  }

  /** The `for...of` loop over the accounts: fetch each account's locations,
      push its entry, in order; the first throw ends the loop. `requested`
      lists the ids whose locations were fetched. */
  method CollectAccounts(raws: seq<RawAccount>, locationsFor: Js.Option<string> -> Js.Call<LocationsJson>)
    returns (out: Js.Call<seq<Account>>, requested: seq<Js.Option<string>>)
    ensures var n := FirstFailure(raws, locationsFor);
      && |requested| == (if n < |raws| then n + 1 else n)
      && requested == AccountIds(raws[..|requested|])
      && (n == |raws| ==>
            && out.Returned? && |out.value| == |raws|
            && forall k :: 0 <= k < |raws| ==> out.value[k] == Entry(raws[k], locationsFor).value)
      && (n < |raws| ==> out == Js.Threw(Entry(raws[n], locationsFor).message))
  {
    var accounts: seq<Account> := [];
    requested := [];
    var i := 0;
    while i < |raws|
      invariant 0 <= i <= |raws|
      invariant |accounts| == i && |requested| == i
      invariant forall k :: 0 <= k < i ==> Entry(raws[k], locationsFor).Returned?
      invariant forall k :: 0 <= k < i ==> accounts[k] == Entry(raws[k], locationsFor).value
      invariant requested == AccountIds(raws[..i])
    {
      var id := AccountId(raws[i]);
      assert AccountIds(raws[..i + 1]) == AccountIds(raws[..i]) + [id];
      requested := requested + [id];
      var locRes := locationsFor(id);
      if locRes.Threw? {
        FirstFailureAt(raws, locationsFor, i);
        return Js.Threw(locRes.message), requested;
      }
      var locations := ReshapeLocations(UpstreamLocations(locRes.value));
      if locations.Threw? {
        FirstFailureAt(raws, locationsFor, i);
        return Js.Threw(locations.message), requested;
      }
      accounts := accounts + [Account(id, AccountName(raws[i]), locations.value)];
      i := i + 1;
    }
    FirstFailureAt(raws, locationsFor, i);
    out := Js.Returned(accounts);
  }

  /** The handler. `token` is the OAuth token exchange, `accountsCall` the
      accounts listing and `locationsFor(id)` the location listing for an
      account id. `requested` lists the ids whose locations were fetched. */
  method ListAccounts(env: Js.OAuthEnv, token: Js.Call<string>, accountsCall: Js.Call<AccountsJson>,
                      locationsFor: Js.Option<string> -> Js.Call<LocationsJson>)
    returns (resp: Js.Response<Body>, requested: seq<Js.Option<string>>)
    ensures !Js.OAuthConfigured(env) ==>
      resp == Js.Response(500, Error("Missing OAuth env vars")) && requested == []
    ensures Js.OAuthConfigured(env) && token.Threw? ==>
      resp == Js.Response(500, Error(token.message)) && requested == []
    ensures Js.OAuthConfigured(env) && token.Returned? && accountsCall.Threw? ==>
      resp == Js.Response(500, Error(accountsCall.message)) && requested == []
    ensures Js.OAuthConfigured(env) && token.Returned? && accountsCall.Returned?
            && Js.IsTruthy(accountsCall.value.error) ==>
      resp == Js.Response(502, Upstream(accountsCall.value)) && requested == []
    ensures Js.OAuthConfigured(env) && token.Returned? && accountsCall.Returned?
            && !Js.IsTruthy(accountsCall.value.error) ==>
      var raws := UpstreamAccounts(accountsCall.value);
      var n := FirstFailure(raws, locationsFor);
      // one location request per account, in order, up to the first failure
      && |requested| == (if n < |raws| then n + 1 else n)
      && requested == AccountIds(raws[..|requested|])
      // every account gives one entry, in upstream order ...
      && (n == |raws| ==>
            && resp.status == 200 && resp.body.Accounts?
            && |resp.body.accounts| == |raws|
            && forall k :: 0 <= k < |raws| ==> resp.body.accounts[k] == Entry(raws[k], locationsFor).value)
      // ... or the first failure is the 500
      && (n < |raws| ==> resp == Js.Response(500, Error(Entry(raws[n], locationsFor).message)))
    ensures resp.status in {200, 500, 502}
  {
    requested := [];
    if !Js.OAuthConfigured(env) {
      return Js.Response(500, Error("Missing OAuth env vars")), requested;
    }
    if token.Threw? {
      return Js.Response(500, Error(token.message)), requested;
    }
    if accountsCall.Threw? {
      return Js.Response(500, Error(accountsCall.message)), requested;
    }
    var accJson := accountsCall.value;
    if Js.IsTruthy(accJson.error) {
      return Js.Response(502, Upstream(accJson)), requested;
    }
    var accounts;
    accounts, requested := CollectAccounts(UpstreamAccounts(accJson), locationsFor);
    if accounts.Threw? {
      return Js.Response(500, Error(accounts.message)), requested;
    }
    resp := Js.Response(200, Accounts(accounts.value));
  }
}
