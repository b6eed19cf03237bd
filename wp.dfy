/**
 * The WordPress back end the migrator writes into, reduced to what it uses:
 * posts with their meta and category assignment, the target category
 * taxonomy `store_product_cat`, the meta query of `WP_Query`, and the
 * collaborators the migrator cannot see (insert refusals, attachment and
 * location lookups, date formatting), which are parameters of the model.
 */
module Wp {
  import opened Wrappers
  import opened Php
  import opened Rules

  /** A stored meta value: a PHP value, a float amount, or one of the structured
      arrays the migrator writes. */
  datatype Meta =
    | Plain(v: Value)
    | Money(amount: real)
    | OptionList(options: seq<AdvancedOption>)
    | Gallery(urls: seq<(Value, string)>)
    | Items(items: seq<LineItem>)

  /** The fields passed to `wp_insert_post`. */
  datatype PostData = PostData(postType: string, title: string, content: string, excerpt: string,
                               status: string, author: int, date: string)

  /** A post: its fields, its meta and the ids of its `store_product_cat` terms. */
  datatype Post = Post(data: PostData, meta: map<string, Meta>, categories: seq<int>)

  /** A term of the target taxonomy `store_product_cat`; `parent` is 0 at the top level. */
  datatype TargetTerm = TargetTerm(name: string, slug: string, parent: int)

  /** The target side of the database. Post `i` has id `i + 1` and term `j` has id
      `j + 1`: ids are handed out in insertion order and never reused. */
  datatype StoreState = StoreState(posts: seq<Post>, terms: seq<TargetTerm>)

  /** A row of the Velocity subdistrict/city join. */
  datatype Location = Location(subdistrict: Value, city: Value, province: Value, postal: Value)

  /** What the migrator cannot see, as parameters:
      - `acceptPost` / `acceptTerm`: whether `wp_insert_post` / `wp_insert_term` succeed;
      - `attachmentUrl`: `wp_get_attachment_url` of an id cast to int, None when it gives no URL;
      - `isImage`: whether `set_post_thumbnail` accepts an attachment id;
      - `formatDate`: `date($format, strtotime($value))`;
      - `location`: the subdistrict lookup, None when no row joins;
      - `runnerFile`: the path PHP reports for the migrator's source file. */
  datatype Env = Env(
    acceptPost: PostData -> bool,
    acceptTerm: (string, string, int) -> bool,
    attachmentUrl: int -> Option<string>,
    isImage: int -> bool,
    formatDate: (string, Value) -> string,
    location: Value -> Option<Location>,
    runnerFile: string)

  // ---------------------------------------------------------------------------
  // Queries

  /** `'post_status' => 'any'` leaves out trashed posts and auto-drafts. */
  predicate Visible(status: string) {
    status != "trash" && status != "auto-draft"
  }

  /** The value filter of a meta query: None when `meta_value` is null, '' or an empty
      array (only the key is then required); otherwise the texts a stored value may have
      (an array of values is matched with IN). */
  function QueryFilter(v: Value): (f: Option<seq<string>>)
    ensures f.None? <==> v == Null || v == Str("") || v == Arr([])
  {
    match v
    case Null => None
    case Str(s) => if s == "" then None else Some([s])
    case Arr(items) => if items == [] then None else Some(Texts(items))
    case _ => Some([ConcatString(v)])
  }

  /** The texts of a list of query values. */
  function Texts(vs: seq<Value>): (ts: seq<string>)
    ensures |ts| == |vs|
    ensures forall i :: 0 <= i < |vs| ==> ts[i] == ConcatString(vs[i])
  {
    if vs == [] then [] else Texts(vs[..|vs| - 1]) + [ConcatString(vs[|vs| - 1])]
  }

  /** A stored value passes the filter when it is a scalar whose text is one of the filter's. */
  predicate Passes(m: Meta, f: Option<seq<string>>) {
    f.None? || (m.Plain? && !m.v.Arr? && ConcatString(m.v) in f.value)
  }

  /** The meta query `post_type`, `meta_key`, `meta_value`, `post_status => any`. */
  predicate PostMatches(p: Post, postType: string, key: string, v: Value) {
    p.data.postType == postType && Visible(p.data.status) &&
    key in p.meta && Passes(p.meta[key], QueryFilter(v))
  }

  /** The id of the first post of `posts` the query matches, 0 when none does. */
  function FindIn(posts: seq<Post>, postType: string, key: string, v: Value): (id: nat)
    ensures id <= |posts|
    ensures id == 0 <==> forall i :: 0 <= i < |posts| ==> !PostMatches(posts[i], postType, key, v)
    ensures id != 0 ==> PostMatches(posts[id - 1], postType, key, v)
    ensures id != 0 ==> forall i :: 0 <= i < id - 1 ==> !PostMatches(posts[i], postType, key, v)
    decreases |posts|
  {
    if posts == [] then 0
    else
      var init := posts[..|posts| - 1];
      var r := FindIn(init, postType, key, v);
      assert forall i :: 0 <= i < |init| ==> init[i] == posts[i];
      if r != 0 then r
      else if PostMatches(posts[|posts| - 1], postType, key, v) then |posts|
      else 0
  }

  /** `WP_Query` with a meta query, reduced to "the first matching post id, or 0". */
  function FindPost(s: StoreState, postType: string, key: string, v: Value): nat {
    FindIn(s.posts, postType, key, v)
  }

  /** `get_post_meta($id, $key, true)`: the stored value, '' when absent. */
  function MetaValue(s: StoreState, id: int, key: string): Meta {
    if 1 <= id <= |s.posts| && key in s.posts[id - 1].meta then s.posts[id - 1].meta[key]
    else Plain(Str(""))
  }

  /** `term_exists($name, 'store_product_cat')`: the id of the first term with that name, or 0. */
  function TermIndex(terms: seq<TargetTerm>, name: string): (id: nat)
    ensures id <= |terms|
    ensures id == 0 <==> forall j :: 0 <= j < |terms| ==> terms[j].name != name
    ensures id != 0 ==> terms[id - 1].name == name
    ensures id != 0 ==> forall j :: 0 <= j < id - 1 ==> terms[j].name != name
    decreases |terms|
  {
    if terms == [] then 0
    else
      var init := terms[..|terms| - 1];
      var r := TermIndex(init, name);
      assert forall j :: 0 <= j < |init| ==> init[j] == terms[j];
      if r != 0 then r
      else if terms[|terms| - 1].name == name then |terms|
      else 0
  }

  // ---------------------------------------------------------------------------
  // Updates

  /** `wp_insert_post`: a new post with the next id, or 0 (and no change) when refused. */
  function AfterInsertPost(env: Env, s: StoreState, data: PostData): (r: (StoreState, nat))
    ensures r.1 == 0 ==> r.0 == s
    ensures r.1 != 0 ==> r.1 == |r.0.posts| && r.0.posts == s.posts + [Post(data, map[], [])] && r.0.terms == s.terms
  {
    if env.acceptPost(data) then (s.(posts := s.posts + [Post(data, map[], [])]), |s.posts| + 1)
    else (s, 0)
  }

  /** `update_post_meta($id, $key, $value)`: sets the key on an existing post; an id that
      names no post changes nothing. */
  function AfterUpdateMeta(s: StoreState, id: int, key: string, value: Meta): (r: StoreState)
    ensures |r.posts| == |s.posts| && r.terms == s.terms
    ensures forall i :: 0 <= i < |s.posts| && i != id - 1 ==> r.posts[i] == s.posts[i]
    ensures 1 <= id <= |s.posts| ==>
      r.posts[id - 1] == s.posts[id - 1].(meta := s.posts[id - 1].meta[key := value])
  {
    if 1 <= id <= |s.posts| then
      s.(posts := s.posts[id - 1 := s.posts[id - 1].(meta := s.posts[id - 1].meta[key := value])])
    else s
  }

  /** The meta of post `id` replaced as a whole. */
  function WithMeta(s: StoreState, id: int, m: map<string, Meta>): (r: StoreState)
    ensures |r.posts| == |s.posts| && r.terms == s.terms
    ensures forall i :: 0 <= i < |s.posts| && i != id - 1 ==> r.posts[i] == s.posts[i]
    ensures 1 <= id <= |s.posts| ==> r.posts[id - 1] == s.posts[id - 1].(meta := m)
  {
    if 1 <= id <= |s.posts| then s.(posts := s.posts[id - 1 := s.posts[id - 1].(meta := m)])
    else s
  }

  /** The meta of post `id`, empty when there is no such post. */
  function MetaOf(s: StoreState, id: int): map<string, Meta> {
    if 1 <= id <= |s.posts| then s.posts[id - 1].meta else map[]
  }

  /** `wp_set_object_terms($id, $ids, 'store_product_cat')`: the post's categories become `ids`. */
  function AfterSetCategories(s: StoreState, id: int, ids: seq<int>): (r: StoreState)
    ensures |r.posts| == |s.posts| && r.terms == s.terms
    ensures forall i :: 0 <= i < |s.posts| && i != id - 1 ==> r.posts[i] == s.posts[i]
    ensures 1 <= id <= |s.posts| ==> r.posts[id - 1] == s.posts[id - 1].(categories := ids)
  {
    if 1 <= id <= |s.posts| then s.(posts := s.posts[id - 1 := s.posts[id - 1].(categories := ids)])
    else s
  }

  /** `wp_insert_term`: a new term with the next id, or 0 (and no change) when refused. */
  function AfterInsertTerm(env: Env, terms: seq<TargetTerm>, name: string, slug: string, parent: int)
    : (r: (seq<TargetTerm>, nat))
    ensures r.1 == 0 ==> r.0 == terms
    ensures r.1 != 0 ==> r.1 == |r.0| && r.0 == terms + [TargetTerm(name, slug, parent)]
  {
    if env.acceptTerm(name, slug, parent) then (terms + [TargetTerm(name, slug, parent)], |terms| + 1)
    else (terms, 0)
  }

  /** `set_post_thumbnail($id, $thumb)`: records a non-zero attachment id that is an image. */
  function AfterSetThumbnail(env: Env, s: StoreState, id: int, thumb: int): (r: StoreState)
    ensures r == s || r == AfterUpdateMeta(s, id, "_thumbnail_id", Plain(Int(thumb)))
  {
    if thumb != 0 && env.isImage(thumb) then AfterUpdateMeta(s, id, "_thumbnail_id", Plain(Int(thumb))) else s
  }

  // ---------------------------------------------------------------------------
  // Writes to one post's meta

  /** Writing a post's meta key by key is replacing its meta map by the updated map. */
  lemma MetaWrite(s: StoreState, id: int, m: map<string, Meta>, key: string, value: Meta)
    ensures AfterUpdateMeta(WithMeta(s, id, m), id, key, value) == WithMeta(s, id, m[key := value])
  {
  }

  /** Replacing a post's meta by its own meta changes nothing. */
  lemma WithOwnMeta(s: StoreState, id: int)
    ensures WithMeta(s, id, MetaOf(s, id)) == s
  {
    if 1 <= id <= |s.posts| {
      assert s.posts[id - 1 := s.posts[id - 1].(meta := s.posts[id - 1].meta)] == s.posts;
    }
  }

  /** The meta just written to a post is what the post holds. */
  lemma MetaOfWithMeta(s: StoreState, id: int, m: map<string, Meta>)
    requires 1 <= id <= |s.posts|
    ensures MetaOf(WithMeta(s, id, m), id) == m
  {
  }

  /** The second of two meta replacements on one post wins. */
  lemma WithMetaTwice(s: StoreState, id: int, m1: map<string, Meta>, m2: map<string, Meta>)
    ensures WithMeta(WithMeta(s, id, m1), id, m2) == WithMeta(s, id, m2)
  {
  }

  // ---------------------------------------------------------------------------
  // Growth

  /** `t` is `s` with posts and terms only added: every existing post and term is unchanged. */
  predicate Extends(s: StoreState, t: StoreState) {
    |s.posts| <= |t.posts| && t.posts[..|s.posts|] == s.posts &&
    |s.terms| <= |t.terms| && t.terms[..|s.terms|] == s.terms
  }

  lemma ExtendsTransitive(s: StoreState, t: StoreState, u: StoreState)
    requires Extends(s, t) && Extends(t, u)
    ensures Extends(s, u)
  {
    assert u.posts[..|s.posts|] == u.posts[..|t.posts|][..|s.posts|];
    assert u.terms[..|s.terms|] == u.terms[..|t.terms|][..|s.terms|];
  }

  lemma InsertExtends(env: Env, s: StoreState, data: PostData)
    ensures Extends(s, AfterInsertPost(env, s, data).0)
  {
    assert (s.posts + [Post(data, map[], [])])[..|s.posts|] == s.posts;
  }

  /** Writes to a post added after `s0` keep every post and term of `s0`. */
  lemma WithMetaExtends(s0: StoreState, s: StoreState, id: int, m: map<string, Meta>)
    requires Extends(s0, s) && id > |s0.posts|
    ensures Extends(s0, WithMeta(s, id, m))
  {
    var t := WithMeta(s, id, m);
    assert forall i :: 0 <= i < |s0.posts| ==> t.posts[i] == s.posts[i] == s.posts[..|s0.posts|][i];
  }

  lemma SetCategoriesExtends(s0: StoreState, s: StoreState, id: int, ids: seq<int>)
    requires Extends(s0, s) && id > |s0.posts|
    ensures Extends(s0, AfterSetCategories(s, id, ids))
  {
    var t := AfterSetCategories(s, id, ids);
    assert forall i :: 0 <= i < |s0.posts| ==> t.posts[i] == s.posts[i] == s.posts[..|s0.posts|][i];
  }

  /** Adding terms keeps every post and term. */
  lemma TermsExtend(s0: StoreState, s: StoreState, terms: seq<TargetTerm>)
    requires Extends(s0, s) && |s.terms| <= |terms| && terms[..|s.terms|] == s.terms
    ensures Extends(s0, s.(terms := terms))
  {
    assert terms[..|s0.terms|] == terms[..|s.terms|][..|s0.terms|];
  }

  /** A post the query finds keeps being found, under the same id, as the store grows. */
  lemma FindPostStable(s: StoreState, t: StoreState, postType: string, key: string, v: Value)
    requires Extends(s, t)
    requires FindPost(s, postType, key, v) != 0
    ensures FindPost(t, postType, key, v) == FindPost(s, postType, key, v)
  {
    var r := FindIn(s.posts, postType, key, v);
    var r' := FindIn(t.posts, postType, key, v);
    assert forall i :: 0 <= i < |s.posts| ==> t.posts[i] == t.posts[..|s.posts|][i];
    assert t.posts[r - 1] == s.posts[r - 1];
  }

  /** A post added to the store or changed in place that the query does not match leaves
      its answer unchanged. */
  lemma {:induction false} FindPostIgnores(posts: seq<Post>, posts': seq<Post>, postType: string, key: string, v: Value)
    requires |posts| <= |posts'|
    requires forall i :: 0 <= i < |posts| && posts'[i] != posts[i] ==>
      !PostMatches(posts[i], postType, key, v) && !PostMatches(posts'[i], postType, key, v)
    requires forall i :: |posts| <= i < |posts'| ==> !PostMatches(posts'[i], postType, key, v)
    ensures FindIn(posts', postType, key, v) == FindIn(posts, postType, key, v)
    decreases |posts'|
  {
    if |posts'| > |posts| {
      FindPostIgnores(posts, posts'[..|posts'| - 1], postType, key, v);
    } else if posts' != [] {
      var n := |posts'| - 1;
      FindPostIgnores(posts[..n], posts'[..n], postType, key, v);
    }
  }

  // ---------------------------------------------------------------------------
  // The database as an object

  /** The WordPress database: posts with their meta and categories, and the
      `store_product_cat` terms. Every method changes exactly what the corresponding
      WordPress function changes. */
  class Database {
    var posts: seq<Post>
    var terms: seq<TargetTerm>
    const env: Env

    function State(): StoreState
      reads this
    {
      StoreState(posts, terms)
    }

    constructor (env: Env, s: StoreState)
      ensures State() == s && this.env == env
    {
      this.env := env;
      posts := s.posts;
      terms := s.terms;
    }

    /** The meta query of `WP_Query` with `posts_per_page => 1`: the id of the first post
        that matches, 0 when none does. */
    method FindPostId(postType: string, key: string, v: Value) returns (id: nat)
      ensures id == FindPost(State(), postType, key, v)
    {
      var i := 0;
      while i < |posts|
        invariant 0 <= i <= |posts|
        invariant forall j :: 0 <= j < i ==> !PostMatches(posts[j], postType, key, v)
      {
        if PostMatches(posts[i], postType, key, v) {
          return i + 1;
        }
        i := i + 1;
      }
      return 0;
    }

    /** `term_exists($name, 'store_product_cat')`: the id of the first term with that name, 0
        when there is none. */
    method TermExists(name: string) returns (id: nat)
      ensures id == TermIndex(terms, name)
    {
      var j := 0;
      while j < |terms|
        invariant 0 <= j <= |terms|
        invariant forall k :: 0 <= k < j ==> terms[k].name != name
      {
        if terms[j].name == name {
          return j + 1;
        }
        j := j + 1;
      }
      return 0;
    }

    /** `get_post_meta($id, $key, true)`. */
    method GetMeta(id: int, key: string) returns (value: Meta)
      ensures value == MetaValue(State(), id, key)
    {
      if 1 <= id <= |posts| && key in posts[id - 1].meta {
        value := posts[id - 1].meta[key];
      } else {
        value := Plain(Str(""));
      }
    }

    method InsertPost(data: PostData) returns (id: nat)
      modifies this
      ensures (State(), id) == AfterInsertPost(env, old(State()), data)
    {
      if env.acceptPost(data) {
        posts := posts + [Post(data, map[], [])];
        id := |posts|;
      } else {
        id := 0;
      }
    }

    method UpdateMeta(id: int, key: string, value: Meta)
      modifies this
      ensures State() == AfterUpdateMeta(old(State()), id, key, value)
    {
      if 1 <= id <= |posts| {
        posts := posts[id - 1 := posts[id - 1].(meta := posts[id - 1].meta[key := value])];
      }
    }

    /** `update_post_meta` on a post whose meta is tracked as a map `m` over the store `s0`:
        the tracked map takes the write. */
    method WriteMeta(id: int, key: string, value: Meta, ghost s0: StoreState, ghost m: map<string, Meta>)
      requires State() == WithMeta(s0, id, m)
      modifies this
      ensures State() == WithMeta(s0, id, m[key := value])
    {
      UpdateMeta(id, key, value);
      MetaWrite(s0, id, m, key, value);
    }

    method SetThumbnail(id: int, thumb: int)
      modifies this
      ensures State() == AfterSetThumbnail(env, old(State()), id, thumb)
    {
      if thumb != 0 && env.isImage(thumb) {
        UpdateMeta(id, "_thumbnail_id", Plain(Int(thumb)));
      }
    }

    method SetCategories(id: int, ids: seq<int>)
      modifies this
      ensures State() == AfterSetCategories(old(State()), id, ids)
    {
      if 1 <= id <= |posts| {
        posts := posts[id - 1 := posts[id - 1].(categories := ids)];
      }
    }

    method InsertTerm(name: string, slug: string, parent: int) returns (id: nat)
      modifies this
      ensures (State().terms, id) == AfterInsertTerm(env, old(State()).terms, name, slug, parent)
      ensures posts == old(posts)
    {
      if env.acceptTerm(name, slug, parent) {
        terms := terms + [TargetTerm(name, slug, parent)];
        id := |terms|;
      } else {
        id := 0;
      }
    }
  }
}
