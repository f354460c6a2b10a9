/**
 * The product list screen: the catalogue, the search filter that runs
 * whenever the query changes, and logout's removal of session keys.
 */
module ProductList {
  import opened Entities
  import opened KeyValue
  import opened Text

  /** The catalogue, prices in cents. */
  const Products: seq<Product> := [
    Product("1", "Jasmin Rice-20 lbs", 5999),
    Product("2", "NAZ- Broken Jasmin Rice - 25 lbs", 9999),
    Product("3", "Star Ansi", 2999),
    Product("4", "NAZ- Red Chilli", 4999),
    Product("5", "Vimto", 4999),
    Product("6", "Cola", 4999),
    Product("7", "Can", 4999)
  ]

  // ---------------------------------------------------------------------------
  // Search

  /** `product.name.toLowerCase().includes(searchQuery.toLowerCase())` */
  predicate NameMatches(p: Product, query: string)
    // The empty query matches every product; a query longer than the name matches none.
    ensures query == [] ==> NameMatches(p, query)
    ensures |query| > |p.name| ==> !NameMatches(p, query)
  {
    assert query == [] ==> OccursAt(ToLower(p.name), ToLower(query), 0);
    Contains(ToLower(p.name), ToLower(query))
  }

  /** `r` is `s` with some elements left out, the rest in their order. */
  predicate IsSubsequence<T(==)>(r: seq<T>, s: seq<T>)
    decreases |s|
  {
    if r == [] then true
    else if s == [] then false
    else (r[0] == s[0] && IsSubsequence(r[1..], s[1..])) || IsSubsequence(r, s[1..])
  }

  /** `products.filter(product => NameMatches(product, query))`: keeps exactly
      the matching products, in catalogue order. */
  function Matching(products: seq<Product>, query: string): (r: seq<Product>)
    ensures IsSubsequence(r, products)
    ensures forall i :: 0 <= i < |r| ==> NameMatches(r[i], query)
    ensures forall i :: 0 <= i < |products| && NameMatches(products[i], query) ==> products[i] in r
    // Each matching product is kept as often as it occurs, the others never.
    ensures forall x :: multiset(r)[x] == if NameMatches(x, query) then multiset(products)[x] else 0
  {
    if products == [] then []
    else
      var rest := Matching(products[1..], query);
      assert forall i :: 1 <= i < |products| ==> products[i] == products[1..][i - 1];
      assert multiset(products) == multiset([products[0]]) + multiset(products[1..]) by {
        assert products == [products[0]] + products[1..];
      }
      if NameMatches(products[0], query) then
        assert ([products[0]] + rest)[1..] == rest;
        [products[0]] + rest
      else rest
  }

  /** The search effect: a query that is blank after trimming shows the whole
      catalogue; otherwise the products whose lower-cased name contains the
      lower-cased query, untrimmed. */
  function SearchFilter(products: seq<Product>, query: string): (r: seq<Product>)
    ensures Blank(query) ==> r == products
    ensures IsSubsequence(r, products)
    ensures !Blank(query) ==> forall i :: 0 <= i < |r| ==> NameMatches(r[i], query)
    ensures !Blank(query) ==> forall i :: 0 <= i < |products| && NameMatches(products[i], query) ==> products[i] in r
  {
    if Trim(query) == "" then
      SubsequenceRefl(products);
      products
    else Matching(products, query)
  }

  lemma {:induction false} SubsequenceRefl<T>(s: seq<T>)
    ensures IsSubsequence(s, s)
    decreases |s|
  {
    if s != [] {
      SubsequenceRefl(s[1..]);
    }
  }

  /** The match uses the untrimmed query: padding a query that names a product
      exactly with one space makes that product disappear, although the
      emptiness test trims it. */
  lemma PaddedQueryMisses(p: Product, w: string)
    requires ToLower(w) == ToLower(p.name) && !Blank(w)
    ensures SearchFilter([p], w) == [p]
    ensures SearchFilter([p], " " + w) == []
  {
    assert [p][1..] == [];
    ContainsSelf(ToLower(p.name));
    assert NameMatches(p, w);
    assert Matching([p], w) == [p] + Matching([], w);
    BlankPrefix(w);
    ContainsNeedsRoom(ToLower(p.name), ToLower(" " + w));
    assert !NameMatches(p, " " + w);
    assert Matching([p], " " + w) == Matching([], " " + w);
  }

  // ---------------------------------------------------------------------------
  // Logout

  const UserKey: string := "@user"
  const CredentialsKey: string := "@credentials"
  const RememberKey: string := "@rememberMe"

  /** Which store call of logout throws, if any; a throw skips the rest of
      the removals (navigation to the login screen happens either way). */
  datatype LogoutFault = NoFault | ReadFails | MultiRemoveFails | RemoveUserFails

  /** `remember === 'true'` */
  predicate Remembered(m: Entries) {
    Get(m, RememberKey) == Some(Raw("true"))
  }

  /** `handleLogout()` on the store. */
  function Logout(m: Entries, fault: LogoutFault): (r: Entries)
    // Without a failure the user key is always gone; with "remember me"
    // 'true' no multiRemove runs, so its failure cannot keep the key either ...
    ensures fault == NoFault || (fault == MultiRemoveFails && Remembered(m)) ==> UserKey !in r
    // ... and the saved credentials go too, unless "remember me" is 'true'.
    ensures fault == NoFault && !Remembered(m) ==> CredentialsKey !in r && RememberKey !in r
    ensures Remembered(m) ==> Get(r, CredentialsKey) == Get(m, CredentialsKey) && Remembered(r)
    // Logout only removes keys, and only these three.
    ensures r.Keys <= m.Keys
    ensures forall k :: k in r ==> r[k] == m[k]
    ensures forall k :: k != UserKey && k != CredentialsKey && k != RememberKey ==> Get(r, k) == Get(m, k)
    ensures fault == ReadFails ==> r == m
    // A throwing multiRemove skips the removal of the user key, so the session survives.
    ensures fault == MultiRemoveFails && !Remembered(m) ==> r == m
    // A throwing removeItem leaves the user key, after the credentials went.
    ensures fault == RemoveUserFails ==>
      Get(r, UserKey) == Get(m, UserKey) && (!Remembered(m) ==> CredentialsKey !in r && RememberKey !in r)
  {
    if fault == ReadFails then m
    else if !Remembered(m) && fault == MultiRemoveFails then m
    else
      var cleared := if Remembered(m) then m else m - {CredentialsKey, RememberKey};
      if fault == RemoveUserFails then cleared else cleared - {UserKey}
  }

  class ProductListScreen {
    var searchQuery: string
    var filteredProducts: seq<Product>
    const storage: Storage

    constructor (storage: Storage)
      ensures this.storage == storage
      ensures searchQuery == "" && filteredProducts == Products
    {
      this.storage := storage;
      searchQuery := "";
      filteredProducts := Products;
    }

    /** Typing into the search box: the query changes and the effect re-filters. */
    method SetSearchQuery(query: string)
      modifies this
      ensures searchQuery == query
      ensures filteredProducts == SearchFilter(Products, query)
    {
      searchQuery := query;
      if Trim(searchQuery) == "" {
        filteredProducts := Products;
      } else {
        filteredProducts := Matching(Products, searchQuery);
      }
    }

    method HandleLogout(fault: LogoutFault)
      modifies storage
      ensures storage.entries == Logout(old(storage.entries), fault)
    {
      if fault == ReadFails {
        return;
      }
      var remember := Get(storage.entries, RememberKey);
      if remember != Some(Raw("true")) {
        if fault == MultiRemoveFails {
          return;
        }
        storage.MultiRemove({CredentialsKey, RememberKey});
      }
      if fault == RemoveUserFails {
        return;
      }
      storage.RemoveItem(UserKey);
    }
  }
}
