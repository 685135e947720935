/**
 * The name mapping the ML scripts share: logical table names to the tables
 * of the database, logical column names to physical ones per table, and the
 * textual rewriting of a query template from logical to physical table names.
 */
module DbMapping {
  import opened Wrappers

  /** A mapping in the insertion order of the dictionary literal. */
  type Mapping = seq<(string, string)>

  /** Logical table name to physical table name. */
  const TableMapping: Mapping := [
    ("articles", "products"),
    ("ventes", "sales_history"),
    ("stock", "stock_levels"),
    ("evenements", "learned_events"),
    ("event_product_impacts", "event_product_impacts"),
    ("predictions", "forecasts"),
    ("alertes", "alerts")
  ]

  /** Real table name to its logical-to-physical column mapping. */
  const ColumnMapping: seq<(string, Mapping)> := [
    ("products", [("id", "id"), ("nom", "name"), ("prix_unitaire", "unit_price"),
                  ("delai_reapprovisionnement", "lead_time_days"), ("categorie", "category"),
                  ("fournisseur", "supplier")]),
    ("sales_history", [("article_id", "product_id"), ("date", "order_date"), ("quantity", "quantity"),
                       ("prix", "unit_price"), ("remise", "discount_applied")]),
    ("stock_levels", [("article_id", "product_id"), ("quantite_actuelle", "quantity_on_hand"),
                      ("quantite_disponible", "quantity_available"), ("date_maj", "recorded_at"),
                      ("current_level", "quantity_on_hand")]),
    ("forecasts", [("article_id", "product_id"), ("date_prevision", "forecast_date"),
                   ("quantite_prevue", "predicted_quantity"), ("borne_inf", "lower_bound"),
                   ("borne_sup", "upper_bound"), ("intervalle_confiance", "confidence_interval")]),
    ("alerts", [("article_id", "product_id"), ("type_alerte", "alert_type"), ("severite", "severity"),
                ("titre", "title"), ("message", "message"), ("statut", "status")])
  ]

  /** Dictionary lookup: the value of the first entry with the key, if any. */
  function Lookup<V>(m: seq<(string, V)>, key: string): (r: Option<V>)
    ensures r.None? <==> forall i :: 0 <= i < |m| ==> m[i].0 != key
    ensures r.Some? ==> exists i :: 0 <= i < |m| && m[i].0 == key && r.value == m[i].1
                                    && forall j :: 0 <= j < i ==> m[j].0 != key
  {
    if m == [] then None
    else if m[0].0 == key then Some(m[0].1)
    else
      var r := Lookup(m[1..], key);
      assert r.Some? ==> exists i :: 1 <= i < |m| && m[i].0 == key && r.value == m[i].1
                                     && forall j :: 0 <= j < i ==> m[j].0 != key by {
        if r.Some? {
          var i :| 0 <= i < |m[1..]| && m[1..][i].0 == key && r.value == m[1..][i].1
                   && forall j :: 0 <= j < i ==> m[1..][j].0 != key;
          assert m[i + 1] == m[1..][i];
          forall j | 0 <= j < i + 1
            ensures m[j].0 != key
          {
            if j > 0 {
              assert m[j] == m[1..][j - 1];
            }
          }
        }
      }
      r
  }

  predicate DistinctKeys<V>(m: seq<(string, V)>) {
    forall i, j :: 0 <= i < j < |m| ==> m[i].0 != m[j].0
  }

  /** With distinct keys, the lookup finds the value of the one entry holding the key. */
  lemma LookupDistinct<V>(m: seq<(string, V)>, i: int)
    requires DistinctKeys(m) && 0 <= i < |m|
    ensures Lookup(m, m[i].0) == Some(m[i].1)
  {
  }

  /** `get_table_name`: the mapped table, or the name itself when it is not a logical one. */
  function GetTableName(logical: string): (r: string)
    ensures forall i :: 0 <= i < |TableMapping| && TableMapping[i].0 == logical ==> r == TableMapping[i].1
    ensures (forall i :: 0 <= i < |TableMapping| ==> TableMapping[i].0 != logical) ==> r == logical
  {
    assert DistinctKeys(TableMapping);
    forall i | 0 <= i < |TableMapping| && TableMapping[i].0 == logical
      ensures Lookup(TableMapping, logical) == Some(TableMapping[i].1)
    {
      LookupDistinct(TableMapping, i);
    }
    Lookup(TableMapping, logical).GetOr(logical)
  }

  /** The column mapping of the real table at position i, whose keys are distinct. */
  lemma ColumnKeysDistinct(i: int)
    requires 0 <= i < |ColumnMapping|
    ensures DistinctKeys(ColumnMapping[i].1)
  {
  }

  /** `get_column_name`: the mapped column of a known table, or the column itself otherwise. */
  function GetColumnName(table: string, logical: string): (r: string)
    ensures forall i, j :: 0 <= i < |ColumnMapping| && ColumnMapping[i].0 == table
                           && 0 <= j < |ColumnMapping[i].1| && ColumnMapping[i].1[j].0 == logical
                           ==> r == ColumnMapping[i].1[j].1
    ensures (forall i :: 0 <= i < |ColumnMapping| ==> ColumnMapping[i].0 != table) ==> r == logical
    ensures (forall i, j :: 0 <= i < |ColumnMapping| && ColumnMapping[i].0 == table && 0 <= j < |ColumnMapping[i].1|
                            ==> ColumnMapping[i].1[j].0 != logical)
            ==> r == logical
  {
    assert DistinctKeys(ColumnMapping);
    forall i | 0 <= i < |ColumnMapping| && ColumnMapping[i].0 == table
      ensures Lookup(ColumnMapping, table) == Some(ColumnMapping[i].1)
    {
      LookupDistinct(ColumnMapping, i);
    }
    forall i, j | 0 <= i < |ColumnMapping| && ColumnMapping[i].0 == table
                  && 0 <= j < |ColumnMapping[i].1| && ColumnMapping[i].1[j].0 == logical
      ensures Lookup(ColumnMapping, table) == Some(ColumnMapping[i].1)
      ensures Lookup(ColumnMapping[i].1, logical) == Some(ColumnMapping[i].1[j].1)
    {
      LookupDistinct(ColumnMapping, i);
      ColumnKeysDistinct(i);
      LookupDistinct(ColumnMapping[i].1, j);
    }
    match Lookup(ColumnMapping, table)
    case None => logical
    case Some(columns) => Lookup(columns, logical).GetOr(logical)
  }

  // ---------------------------------------------------------------------
  // Textual replacement

  /** `pat` occurs in `s` at position i. */
  predicate OccursAt(s: string, pat: string, i: int) {
    0 <= i && i + |pat| <= |s| && s[i..i + |pat|] == pat
  }

  predicate Contains(s: string, pat: string) {
    exists i | 0 <= i <= |s| - |pat| :: OccursAt(s, pat, i)
  }

  /** Python's `str.replace` for a non-empty pattern: left to right, without overlaps. */
  function Replace(s: string, pat: string, rep: string): string
    requires |pat| > 0
    decreases |s|
  {
    if |s| < |pat| then s
    else if s[..|pat|] == pat then rep + Replace(s[|pat|..], pat, rep)
    else [s[0]] + Replace(s[1..], pat, rep)
  }

  /** The number of occurrences `Replace` rewrites. */
  function Replaced(s: string, pat: string): nat
    requires |pat| > 0
    decreases |s|
  {
    if |s| < |pat| then 0
    else if s[..|pat|] == pat then 1 + Replaced(s[|pat|..], pat)
    else Replaced(s[1..], pat)
  }

  /** Each rewritten occurrence changes the length by the difference of the two texts. */
  lemma {:induction false} ReplaceLength(s: string, pat: string, rep: string)
    requires |pat| > 0
    ensures |Replace(s, pat, rep)| == |s| + Replaced(s, pat) * (|rep| - |pat|)
    decreases |s|
  {
    if |s| >= |pat| {
      if s[..|pat|] == pat {
        var rest := s[|pat|..];
        ReplaceLength(rest, pat, rep);
        assert |Replace(s, pat, rep)| == |rep| + |Replace(rest, pat, rep)|;
        assert Replaced(s, pat) == 1 + Replaced(rest, pat);
        ShiftProduct(Replaced(rest, pat), |rep| - |pat|);
      } else {
        ReplaceLength(s[1..], pat, rep);
        assert |Replace(s, pat, rep)| == 1 + |Replace(s[1..], pat, rep)|;
      }
    }
  }

  lemma ShiftProduct(n: nat, d: int)
    ensures (1 + n) * d == d + n * d
  {
  }

  /** A text without the pattern is left as it is, and nothing is counted. */
  lemma {:induction false} ReplaceAbsent(s: string, pat: string, rep: string)
    requires |pat| > 0 && !Contains(s, pat)
    ensures Replace(s, pat, rep) == s && Replaced(s, pat) == 0
    decreases |s|
  {
    if |s| >= |pat| {
      assert !OccursAt(s, pat, 0);
      assert s[..|pat|] != pat;
      assert !Contains(s[1..], pat) by {
        forall i | 0 <= i <= |s[1..]| - |pat|
          ensures !OccursAt(s[1..], pat, i)
        {
          if i + |pat| <= |s[1..]| {
            assert s[1..][i..i + |pat|] == s[i + 1..i + 1 + |pat|];
            assert !OccursAt(s, pat, i + 1);
          }
        }
      }
      ReplaceAbsent(s[1..], pat, rep);
      assert s == [s[0]] + s[1..];
    }
  }

  /** Replacing a pattern by itself changes nothing. */
  lemma {:induction false} ReplaceBySelf(s: string, pat: string)
    requires |pat| > 0
    ensures Replace(s, pat, pat) == s
    decreases |s|
  {
    if |s| >= |pat| {
      if s[..|pat|] == pat {
        ReplaceBySelf(s[|pat|..], pat);
        assert s == s[..|pat|] + s[|pat|..];
      } else {
        ReplaceBySelf(s[1..], pat);
        assert s == [s[0]] + s[1..];
      }
    }
  }

  /** A slice of a slice is a slice of the whole. */
  lemma SliceOfSlice(s: string, i: nat, n: nat, o: nat, m: nat)
    requires i + n <= |s| && o + m <= n
    ensures s[i..i + n][o..o + m] == s[i + o..i + o + m]
  {
    var a := s[i..i + n][o..o + m];
    var b := s[i + o..i + o + m];
    assert |a| == |b|;
    assert forall t :: 0 <= t < m ==> a[t] == s[i + o + t] == b[t];
  }

  /** A text without `key` has no occurrence of a pattern that embeds `key` at `offset`. */
  lemma AbsentInside(s: string, key: string, pat: string, offset: nat)
    requires offset + |key| <= |pat| && pat[offset..offset + |key|] == key
    requires !Contains(s, key)
    ensures !Contains(s, pat)
  {
    forall i | 0 <= i <= |s| - |pat|
      ensures !OccursAt(s, pat, i)
    {
      var j := i + offset;
      assert 0 <= j <= |s| - |key|;
      assert !OccursAt(s, key, j);
      assert s[j..j + |key|] != key;
      SliceOfSlice(s, i, |pat|, offset, |key|);
      assert s[i..i + |pat|][offset..offset + |key|] != pat[offset..offset + |key|];
    }
  }

  /** Where the pattern starts, `Replace` writes the replacement and goes on after the occurrence. */
  lemma ReplaceAtStart(s: string, pat: string, rep: string)
    requires 0 < |pat| <= |s| && s[..|pat|] == pat
    ensures Replace(s, pat, rep) == rep + Replace(s[|pat|..], pat, rep)
  {
  }

  /** Where the pattern's first character is not, `Replace` copies the character and goes on. */
  lemma ReplaceSkip(s: string, pat: string, rep: string)
    requires 0 < |pat| && 0 < |s| && s[0] != pat[0]
    ensures Replace(s, pat, rep) == [s[0]] + Replace(s[1..], pat, rep)
  {
    if |pat| <= |s| {
      assert s[..|pat|][0] == s[0];
    } else {
      assert s == [s[0]] + s[1..];
    }
  }

  /** Putting the first character back in front of the slices of the rest. */
  lemma ConsSlices(s: string, k: nat, n: nat, rep: string)
    requires 0 < k && k + n <= |s|
    ensures [s[0]] + (s[1..][..k - 1] + rep + s[1..][k - 1 + n..]) == s[..k] + rep + s[k + n..]
  {
    assert s[1..][k - 1 + n..] == s[k + n..];
    assert [s[0]] + s[1..][..k - 1] == s[..k];
  }

  /**
   * A single occurrence of the pattern at k, whose first character does not
   * occur before it and after which less than a pattern's length remains,
   * is replaced and the rest of the text copied.
   */
  lemma {:induction false} ReplaceSingle(s: string, pat: string, rep: string, k: nat)
    requires 0 < |pat| && k + |pat| <= |s| && s[k..k + |pat|] == pat && |s| - k - |pat| < |pat|
    requires forall i :: 0 <= i < k ==> s[i] != pat[0]
    ensures Replace(s, pat, rep) == s[..k] + rep + s[k + |pat|..]
    decreases k
  {
    if k == 0 {
      assert s[..|pat|] == pat;
      ReplaceAtStart(s, pat, rep);
      assert Replace(s[|pat|..], pat, rep) == s[|pat|..];
    } else {
      var s1 := s[1..];
      assert s1[k - 1..k - 1 + |pat|] == s[k..k + |pat|];
      assert forall i :: 0 <= i < k - 1 ==> s1[i] == s[i + 1];
      ReplaceSingle(s1, pat, rep, k - 1);
      assert s[0] != pat[0];
      ReplaceSkip(s, pat, rep);
      ConsSlices(s, k, |pat|, rep);
    }
  }

  /** A text in which the pattern's first and last characters never sit at the pattern's distance does not contain it. */
  lemma EndsAbsent(s: string, pat: string)
    requires |pat| > 0
    requires forall i :: 0 <= i <= |s| - |pat| && s[i] == pat[0] ==> s[i + |pat| - 1] != pat[|pat| - 1]
    ensures !Contains(s, pat)
  {
    forall i | 0 <= i <= |s| - |pat|
      ensures !OccursAt(s, pat, i)
    {
      assert s[i..i + |pat|][0] == s[i];
      assert s[i..i + |pat|][|pat| - 1] == s[i + |pat| - 1];
    }
  }

  // ---------------------------------------------------------------------
  // Query rewriting

  /** The five rewrites `build_query` applies for one logical table, in order. */
  function RewriteTable(q: string, logical: string, physical: string): string {
    var q1 := Replace(q, " " + logical + " ", " " + physical + " ");
    var q2 := Replace(q1, " " + logical + ".", " " + physical + ".");
    var q3 := Replace(q2, "FROM " + logical, "FROM " + physical);
    var q4 := Replace(q3, "JOIN " + logical, "JOIN " + physical);
    Replace(q4, "INTO " + logical, "INTO " + physical)
  }

  /** The rewrites of every entry of a mapping, in order. */
  function RewriteAll(q: string, m: Mapping): string {
    if m == [] then q else RewriteTable(RewriteAll(q, m[..|m| - 1]), m[|m| - 1].0, m[|m| - 1].1)
  }

  /** None of the five patterns `build_query` rewrites for `logical` occurs in the query. */
  predicate MentionsNone(q: string, logical: string) {
    && !Contains(q, " " + logical + " ") && !Contains(q, " " + logical + ".")
    && !Contains(q, "FROM " + logical) && !Contains(q, "JOIN " + logical) && !Contains(q, "INTO " + logical)
  }

  /** A query in which none of the five patterns of a logical name occurs is not touched by its rewrites. */
  lemma RewriteTableUnmentioned(q: string, logical: string, physical: string)
    requires MentionsNone(q, logical)
    ensures RewriteTable(q, logical, physical) == q
  {
    ReplaceAbsent(q, " " + logical + " ", " " + physical + " ");
    ReplaceAbsent(q, " " + logical + ".", " " + physical + ".");
    ReplaceAbsent(q, "FROM " + logical, "FROM " + physical);
    ReplaceAbsent(q, "JOIN " + logical, "JOIN " + physical);
    ReplaceAbsent(q, "INTO " + logical, "INTO " + physical);
  }

  /** A query in which a logical name does not occur mentions none of its patterns. */
  lemma NameAbsentMentionsNone(q: string, logical: string)
    requires !Contains(q, logical)
    ensures MentionsNone(q, logical)
  {
    var p1, p2 := " " + logical + " ", " " + logical + ".";
    var p3, p4, p5 := "FROM " + logical, "JOIN " + logical, "INTO " + logical;
    assert p1[1..1 + |logical|] == logical && p2[1..1 + |logical|] == logical;
    assert p3[5..5 + |logical|] == logical && p4[5..5 + |logical|] == logical && p5[5..5 + |logical|] == logical;
    AbsentInside(q, logical, p1, 1);
    AbsentInside(q, logical, p2, 1);
    AbsentInside(q, logical, p3, 5);
    AbsentInside(q, logical, p4, 5);
    AbsentInside(q, logical, p5, 5);
  }

  /** A query in which a logical name does not occur is not touched by its rewrites. */
  lemma RewriteTableAbsent(q: string, logical: string, physical: string)
    requires !Contains(q, logical)
    ensures RewriteTable(q, logical, physical) == q
  {
    NameAbsentMentionsNone(q, logical);
    RewriteTableUnmentioned(q, logical, physical);
  }

  /** A query matching none of the patterns of any logical name comes out of the rewriting unchanged. */
  lemma {:induction false} RewriteAllAbsent(q: string, m: Mapping)
    requires forall i :: 0 <= i < |m| ==> MentionsNone(q, m[i].0)
    ensures RewriteAll(q, m) == q
  {
    if m != [] {
      RewriteAllAbsent(q, m[..|m| - 1]);
      RewriteTableUnmentioned(q, m[|m| - 1].0, m[|m| - 1].1);
    }
  }

  /** The rewriting by a mapping is the rewriting by its first k entries followed by the rest. */
  lemma {:induction false} RewriteAllSplit(q: string, m: Mapping, k: int)
    requires 0 <= k <= |m|
    ensures RewriteAll(q, m) == RewriteAll(RewriteAll(q, m[..k]), m[k..])
    decreases |m|
  {
    if k == |m| {
      assert m[..k] == m;
      assert m[k..] == [];
    } else {
      var init := m[..|m| - 1];
      RewriteAllSplit(q, init, k);
      assert init[..k] == m[..k];
      assert m[k..][..|m[k..]| - 1] == init[k..];
      assert m[k..][|m[k..]| - 1] == m[|m| - 1];
    }
  }

  /** Entries that map a name to itself change nothing. */
  lemma RewriteTableIdentity(q: string, name: string)
    ensures RewriteTable(q, name, name) == q
  {
    ReplaceBySelf(q, " " + name + " ");
    ReplaceBySelf(q, " " + name + ".");
    ReplaceBySelf(q, "FROM " + name);
    ReplaceBySelf(q, "JOIN " + name);
    ReplaceBySelf(q, "INTO " + name);
  }

  /** An entry whose FROM pattern is the only one of its five that occurs, before and after that rewrite. */
  lemma OnlyFromRewritten(q: string, logical: string, physical: string)
    requires !Contains(q, " " + logical + " ") && !Contains(q, " " + logical + ".")
    requires var q3 := Replace(q, "FROM " + logical, "FROM " + physical);
      !Contains(q3, "JOIN " + logical) && !Contains(q3, "INTO " + logical)
    ensures RewriteTable(q, logical, physical) == Replace(q, "FROM " + logical, "FROM " + physical)
  {
    var q3 := Replace(q, "FROM " + logical, "FROM " + physical);
    ReplaceAbsent(q, " " + logical + " ", " " + physical + " ");
    ReplaceAbsent(q, " " + logical + ".", " " + physical + ".");
    ReplaceAbsent(q3, "JOIN " + logical, "JOIN " + physical);
    ReplaceAbsent(q3, "INTO " + logical, "INTO " + physical);
  }

  /** `build_query`: every entry of the table mapping in turn, each with its five rewrites. */
  method BuildQuery(template: string) returns (query: string)
    ensures query == RewriteAll(template, TableMapping)
  {
    query := template;
    var i := 0;
    while i < |TableMapping|
      invariant 0 <= i <= |TableMapping|
      invariant query == RewriteAll(template, TableMapping[..i])
    {
      assert TableMapping[..i + 1][..i] == TableMapping[..i];
      var (logical, physical) := TableMapping[i];
      query := Replace(query, " " + logical + " ", " " + physical + " ");
      query := Replace(query, " " + logical + ".", " " + physical + ".");
      query := Replace(query, "FROM " + logical, "FROM " + physical);
      query := Replace(query, "JOIN " + logical, "JOIN " + physical);
      query := Replace(query, "INTO " + logical, "INTO " + physical);
      i := i + 1;
    }
    assert TableMapping[..|TableMapping|] == TableMapping;
  }

  // ---------------------------------------------------------------------
  // Worked examples

  /** The patterns of the `articles` entry, spelled out. */
  lemma ArticlesPatterns()
    ensures TableMapping[0] == ("articles", "products")
    ensures " " + "articles" + " " == " articles " && " " + "articles" + "." == " articles."
    ensures "FROM " + "articles" == "FROM articles" && "FROM " + "products" == "FROM products"
    ensures "JOIN " + "articles" == "JOIN articles" && "INTO " + "articles" == "INTO articles"
  {
  }

  /** The docstring's query: no space is followed, nine places on, by a space or a dot. */
  lemma ArticlesQuerySpaced(q: string)
    requires q == "SELECT * " + "FROM articles"
    ensures !Contains(q, " articles ") && !Contains(q, " articles.")
  {
    assert forall i :: 0 <= i <= |q| - 10 && q[i] == ' ' ==> q[i + 9] != ' ' && q[i + 9] != '.';
    EndsAbsent(q, " articles ");
    EndsAbsent(q, " articles.");
  }

  /** The FROM rewrite of the `articles` entry on the docstring's query. */
  lemma FromArticles(q: string, r: string)
    requires q == "SELECT * " + "FROM articles" && r == "SELECT * " + "FROM products"
    ensures Replace(q, "FROM articles", "FROM products") == r
  {
    assert forall i :: 0 <= i < 9 ==> q[i] != 'F';
    assert q[9..22] == "FROM articles";
    ReplaceSingle(q, "FROM articles", "FROM products", 9);
    assert q[..9] == "SELECT * " && q[22..] == [];
  }

  /** The rewritten docstring query has no `J` and no `I`. */
  lemma ProductsQueryNoJoin(r: string)
    requires r == "SELECT * " + "FROM products"
    ensures !Contains(r, "JOIN articles") && !Contains(r, "INTO articles")
  {
    assert forall i :: 0 <= i < |r| ==> r[i] != 'J' && r[i] != 'I';
    EndsAbsent(r, "JOIN articles");
    EndsAbsent(r, "INTO articles");
  }

  /** The five rewrites of the `articles` entry on the docstring's query: only the FROM rewrite fires. */
  lemma ArticlesEntry(q: string, r: string)
    requires q == "SELECT * " + "FROM articles" && r == "SELECT * " + "FROM products"
    ensures RewriteTable(q, TableMapping[0].0, TableMapping[0].1) == r
  {
    ArticlesQuerySpaced(q);
    FromArticles(q, r);
    ProductsQueryNoJoin(r);
    ArticlesPatterns();
    OnlyFromRewritten(q, "articles", "products");
  }

  /** `SELECT * FROM products` mentions none of the patterns of the entries after `articles`. */
  lemma ProductsQueryUntouched(r: string)
    requires r == "SELECT * " + "FROM products"
    ensures forall i :: 1 <= i < |TableMapping| ==> MentionsNone(r, TableMapping[i].0)
  {
    assert forall i :: 0 <= i < |r| ==> r[i] != 'v' && r[i] != 'e' && r[i] != 'a';
    assert forall i :: 0 <= i < |r| && (r[i] == 's' || r[i] == 'p') ==> 14 <= i;
    EndsAbsent(r, "ventes");
    EndsAbsent(r, "stock");
    EndsAbsent(r, "evenements");
    EndsAbsent(r, "event_product_impacts");
    EndsAbsent(r, "predictions");
    EndsAbsent(r, "alertes");
    NameAbsentMentionsNone(r, "ventes");
    NameAbsentMentionsNone(r, "stock");
    NameAbsentMentionsNone(r, "evenements");
    NameAbsentMentionsNone(r, "event_product_impacts");
    NameAbsentMentionsNone(r, "predictions");
    NameAbsentMentionsNone(r, "alertes");
  }

  /** The docstring's query and its rewriting, split where the FROM pattern begins. */
  lemma DocstringQueries()
    ensures "SELECT * " + "FROM articles" == "SELECT * FROM articles"
    ensures "SELECT * " + "FROM products" == "SELECT * FROM products"
  {
  }

  /** The docstring's query, built from its pieces, goes through all seven entries: only `articles` changes it. */
  lemma DocstringRewrite(q: string, r: string)
    requires q == "SELECT * " + "FROM articles" && r == "SELECT * " + "FROM products"
    ensures RewriteAll(q, TableMapping) == r
  {
    RewriteAllSplit(q, TableMapping, 1);
    assert TableMapping[..1][..0] == [];
    ArticlesEntry(q, r);
    ProductsQueryUntouched(r);
    var rest := TableMapping[1..];
    forall i | 0 <= i < |rest|
      ensures MentionsNone(r, rest[i].0)
    {
      assert rest[i] == TableMapping[i + 1];
    }
    RewriteAllAbsent(r, rest);
  }

  /** The example of the `build_query` docstring: `SELECT * FROM articles` becomes `SELECT * FROM products`. */
  lemma DocstringExample()
    ensures RewriteAll("SELECT * FROM articles", TableMapping) == "SELECT * FROM products"
  {
    DocstringQueries();
    DocstringRewrite("SELECT * " + "FROM articles", "SELECT * " + "FROM products");
  }

  /** The patterns of the `stock` entry, spelled out. */
  lemma StockPatterns()
    ensures TableMapping[2] == ("stock", "stock_levels")
    ensures " " + "stock" + " " == " stock " && " " + "stock" + "." == " stock."
    ensures "FROM " + "stock" == "FROM stock" && "FROM " + "stock_levels" == "FROM stock_levels"
    ensures "JOIN " + "stock" == "JOIN stock" && "INTO " + "stock" == "INTO stock"
  {
  }

  /** A query reading from `stock_levels` mentions neither `articles` nor `ventes`. */
  lemma StockLevelsBeforeEntry(q: string)
    requires q == "SELECT * " + "FROM stock" + "_levels"
    ensures forall i :: 0 <= i < 2 ==> MentionsNone(q, TableMapping[i].0)
  {
    assert forall i :: 0 <= i < |q| ==> q[i] != 'a';
    assert forall i :: 0 <= i < |q| && q[i] == 'v' ==> 21 <= i;
    EndsAbsent(q, "articles");
    EndsAbsent(q, "ventes");
    NameAbsentMentionsNone(q, "articles");
    NameAbsentMentionsNone(q, "ventes");
  }

  /** A query reading from `stock_levels`: no space is followed, six places on, by a space or a dot. */
  lemma StockLevelsSpaced(q: string)
    requires q == "SELECT * " + "FROM stock" + "_levels"
    ensures !Contains(q, " stock ") && !Contains(q, " stock.")
  {
    assert forall i :: 0 <= i <= |q| - 7 && q[i] == ' ' ==> q[i + 6] != ' ' && q[i + 6] != '.';
    EndsAbsent(q, " stock ");
    EndsAbsent(q, " stock.");
  }

  /** The FROM rewrite of the `stock` entry on a query reading from `stock_levels`. */
  lemma FromStock(q: string, r: string)
    requires q == "SELECT * " + "FROM stock" + "_levels" && r == "SELECT * " + "FROM stock_levels" + "_levels"
    ensures Replace(q, "FROM stock", "FROM stock_levels") == r
  {
    assert forall i :: 0 <= i < 9 ==> q[i] != 'F';
    assert q[9..19] == "FROM stock";
    ReplaceSingle(q, "FROM stock", "FROM stock_levels", 9);
    assert q[..9] == "SELECT * " && q[19..] == "_levels";
  }

  /** The rewritten query has no `J` and no `I`. */
  lemma LevelsLevelsNoJoin(r: string)
    requires r == "SELECT * " + "FROM stock_levels" + "_levels"
    ensures !Contains(r, "JOIN stock") && !Contains(r, "INTO stock")
  {
    assert forall i :: 0 <= i < |r| ==> r[i] != 'J' && r[i] != 'I';
    EndsAbsent(r, "JOIN stock");
    EndsAbsent(r, "INTO stock");
  }

  /** The five rewrites of the `stock` entry: only the FROM rewrite fires, and it lengthens `stock_levels`. */
  lemma StockEntry(q: string, r: string)
    requires q == "SELECT * " + "FROM stock" + "_levels" && r == "SELECT * " + "FROM stock_levels" + "_levels"
    ensures RewriteTable(q, TableMapping[2].0, TableMapping[2].1) == r
  {
    StockLevelsSpaced(q);
    FromStock(q, r);
    LevelsLevelsNoJoin(r);
    StockPatterns();
    OnlyFromRewritten(q, "stock", "stock_levels");
  }

  /** The patterns of the `evenements` entry, spelled out. */
  lemma EventsPatterns()
    ensures " " + "evenements" + " " == " evenements " && " " + "evenements" + "." == " evenements."
    ensures "FROM " + "evenements" == "FROM evenements"
    ensures "JOIN " + "evenements" == "JOIN evenements" && "INTO " + "evenements" == "INTO evenements"
  {
  }

  /** No space of the rewritten query is followed, eleven places on, by a space or a dot. */
  lemma LevelsLevelsSpaced(r: string)
    requires r == "SELECT * " + "FROM stock_levels" + "_levels"
    ensures !Contains(r, " evenements ") && !Contains(r, " evenements.")
  {
    assert forall i :: 0 <= i <= |r| - 12 && r[i] == ' ' ==> r[i + 11] != ' ' && r[i + 11] != '.';
    EndsAbsent(r, " evenements ");
    EndsAbsent(r, " evenements.");
  }

  /** The one `F` of the rewritten query is not followed, fourteen places on, by an `s`; it has no `J` or `I`. */
  lemma LevelsLevelsKeywords(r: string)
    requires r == "SELECT * " + "FROM stock_levels" + "_levels"
    ensures !Contains(r, "FROM evenements") && !Contains(r, "JOIN evenements") && !Contains(r, "INTO evenements")
  {
    assert forall i :: 0 <= i <= |r| - 15 && r[i] == 'F' ==> r[i + 14] != 's';
    assert forall i :: 0 <= i < |r| ==> r[i] != 'J' && r[i] != 'I';
    EndsAbsent(r, "FROM evenements");
    EndsAbsent(r, "JOIN evenements");
    EndsAbsent(r, "INTO evenements");
  }

  /** The rewritten query mentions none of the entries after `stock`. */
  lemma StockLevelsAfterEntry(r: string)
    requires r == "SELECT * " + "FROM stock_levels" + "_levels"
    ensures forall i :: 3 <= i < |TableMapping| ==> MentionsNone(r, TableMapping[i].0)
  {
    LevelsLevelsSpaced(r);
    LevelsLevelsKeywords(r);
    EventsPatterns();
    assert MentionsNone(r, "evenements");
    assert forall i :: 0 <= i < |r| ==> r[i] != 'p' && r[i] != 'a';
    assert forall i :: 0 <= i < |r| && r[i] == 'e' ==> 21 <= i;
    EndsAbsent(r, "event_product_impacts");
    EndsAbsent(r, "predictions");
    EndsAbsent(r, "alertes");
    NameAbsentMentionsNone(r, "event_product_impacts");
    NameAbsentMentionsNone(r, "predictions");
    NameAbsentMentionsNone(r, "alertes");
  }

  /** A query reading from `stock_levels` goes through all seven entries: only `stock` changes it. */
  lemma StockLevelsRewrite(q: string, r: string)
    requires q == "SELECT * " + "FROM stock" + "_levels" && r == "SELECT * " + "FROM stock_levels" + "_levels"
    ensures RewriteAll(q, TableMapping) == r
  {
    RewriteAllSplit(q, TableMapping, 3);
    var head := TableMapping[..3];
    RewriteAllSplit(q, head, 2);
    StockLevelsBeforeEntry(q);
    forall i | 0 <= i < |head[..2]|
      ensures MentionsNone(q, head[..2][i].0)
    {
      assert head[..2][i] == TableMapping[i];
    }
    RewriteAllAbsent(q, head[..2]);
    assert head[2..] == [TableMapping[2]];
    assert head[2..][..0] == [];
    StockEntry(q, r);
    StockLevelsAfterEntry(r);
    var rest := TableMapping[3..];
    forall i | 0 <= i < |rest|
      ensures MentionsNone(r, rest[i].0)
    {
      assert rest[i] == TableMapping[i + 3];
    }
    RewriteAllAbsent(r, rest);
  }

  /** The query and its rewriting, split where the FROM pattern begins and ends. */
  lemma StockLevelsQueries()
    ensures "SELECT * " + "FROM stock" + "_levels" == "SELECT * FROM stock_levels"
    ensures "SELECT * " + "FROM stock_levels" + "_levels" == "SELECT * FROM stock_levels_levels"
  {
  }

  /**
   * The physical name `stock_levels` begins with the logical name `stock`,
   * so a query that already reads from `stock_levels` comes out of
   * `build_query` reading from `stock_levels_levels`, a table that does not
   * exist: the FROM rewrite of the `stock` entry fires on it.
   */
  lemma StockLevelsRewrittenAgain()
    ensures TableMapping[2] == ("stock", "stock_levels")
    ensures RewriteAll("SELECT * FROM stock_levels", TableMapping) == "SELECT * FROM stock_levels_levels"
  {
    StockLevelsQueries();
    StockLevelsRewrite("SELECT * " + "FROM stock" + "_levels", "SELECT * " + "FROM stock_levels" + "_levels");
  }
}
