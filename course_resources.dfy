/** The resources tab of a course (components/courses/course-resources.tsx):
    the fetched list, the search/type filter over it, its grouping into
    category tabs, and the file-type icon. */
module CourseResources {
  import opened Common
  import opened Backend

  /** A row of the resources table; `category` may be null. */
  datatype Resource = Resource(id: string, title: string, description: string, kind: string, category: Option<string>)

  /** The `{ data, error }` answer of the resources query. */
  datatype FetchAnswer = FetchAnswer(data: Option<seq<Resource>>, error: Option<BackendError>)

  /** The icons the resource views choose between. */
  datatype FileIcon = DocumentIcon | VideoIcon | ImageIcon | GenericIcon

  /** The list the fetch effect stores: empty on an error or a thrown call,
      otherwise `data || []`. */
  function LoadedResources(answer: Call<FetchAnswer>): (r: seq<Resource>)
    ensures answer.Threw? || answer.value.error.Some? ==> r == []
    ensures answer.Returned? && answer.value.error.None? && answer.value.data.Some? ==> r == answer.value.data.value
    ensures answer.Returned? && answer.value.data.None? ==> r == []
  {
    match answer
    case Threw(_) => []
    case Returned(FetchAnswer(data, error)) =>
      if error.Some? then [] else if data.Some? then data.value else []
  }

  /** `getFileIcon`: "pdf" is tested first, then "video", then "image". */
  function GetFileIcon(kind: string): (icon: FileIcon)
    ensures icon == DocumentIcon <==> Includes(kind, "pdf")
    ensures icon == VideoIcon <==> !Includes(kind, "pdf") && Includes(kind, "video")
    ensures icon == ImageIcon <==> !Includes(kind, "pdf") && !Includes(kind, "video") && Includes(kind, "image")
    ensures icon == GenericIcon <==> !Includes(kind, "pdf") && !Includes(kind, "video") && !Includes(kind, "image")
  {
    if Includes(kind, "pdf") then DocumentIcon
    else if Includes(kind, "video") then VideoIcon
    else if Includes(kind, "image") then ImageIcon
    else GenericIcon
  }

  /** Case-insensitive search over title and description. */
  predicate MatchesSearch(r: Resource, searchTerm: string) {
    Includes(ToLower(r.title), ToLower(searchTerm)) || Includes(ToLower(r.description), ToLower(searchTerm))
  }

  predicate MatchesType(r: Resource, typeFilter: string) {
    typeFilter == "all" || r.kind == typeFilter
  }

  function Keep(searchTerm: string, typeFilter: string): Resource -> bool {
    (r: Resource) => MatchesSearch(r, searchTerm) && MatchesType(r, typeFilter)
  }

  /** `filteredResources`: exactly the resources matching the search and the
      type, in their fetched order. */
  function FilteredResources(resources: seq<Resource>, searchTerm: string, typeFilter: string): (r: seq<Resource>)
    ensures forall k :: 0 <= k < |r| ==> MatchesSearch(r[k], searchTerm) && MatchesType(r[k], typeFilter)
    ensures forall k :: (0 <= k < |resources| && MatchesSearch(resources[k], searchTerm)
                         && MatchesType(resources[k], typeFilter)) ==> resources[k] in r
    ensures IsSubsequence(r, resources)
  {
    FilterIsSubsequence(resources, Keep(searchTerm, typeFilter));
    Filter(resources, Keep(searchTerm, typeFilter))
  }

  /** An empty search under the "all" type keeps the whole list. */
  lemma EmptySearchKeepsAll(resources: seq<Resource>)
    ensures FilteredResources(resources, "", "all") == resources
  {
    forall k | 0 <= k < |resources| ensures Keep("", "all")(resources[k]) {
      IncludesEmpty(ToLower(resources[k].title));
    }
    FilterAll(resources, Keep("", "all"));
  }

  // ---------------------------------------------------------------------------
  // Grouping by category

  /** `resource.category || "other"` */
  function CategoryOf(r: Resource): string {
    OrElse(r.category, "other")
  }

  function InCategory(category: string): Resource -> bool {
    (r: Resource) => CategoryOf(r) == category
  }

  /** The category keys in order of first appearance: the order in which the
      reduce creates them, which is the order of `Object.keys`. */
  function CategoryKeys(s: seq<Resource>): (keys: seq<string>)
    ensures forall i, j :: 0 <= i < j < |keys| ==> keys[i] != keys[j]
    ensures forall k :: 0 <= k < |s| ==> CategoryOf(s[k]) in keys
  {
    if s == [] then []
    else
      var prefix := CategoryKeys(s[..|s| - 1]);
      var last := CategoryOf(s[|s| - 1]);
      assert forall k :: 0 <= k < |s| - 1 ==> s[..|s| - 1][k] == s[k];
      if last in prefix then prefix else prefix + [last]
  }

  /** The sum of the group sizes, over the given keys. */
  function GroupSizes(keys: seq<string>, groups: map<string, seq<Resource>>): nat
    requires forall k :: k in keys ==> k in groups
  {
    if keys == [] then 0
    else GroupSizes(keys[..|keys| - 1], groups) + |groups[keys[|keys| - 1]]|
  }

  lemma {:induction false} GroupSizesOther(keys: seq<string>, groups: map<string, seq<Resource>>, key: string, g: seq<Resource>)
    requires forall k :: k in keys ==> k in groups
    requires key !in keys
    ensures GroupSizes(keys, groups[key := g]) == GroupSizes(keys, groups)
  {
    if keys != [] {
      GroupSizesOther(keys[..|keys| - 1], groups, key, g);
    }
  }

  lemma {:induction false} GroupSizesGrow(keys: seq<string>, groups: map<string, seq<Resource>>, key: string, x: Resource)
    requires forall k :: k in keys ==> k in groups
    requires forall i, j :: 0 <= i < j < |keys| ==> keys[i] != keys[j]
    requires key in keys
    ensures GroupSizes(keys, groups[key := groups[key] + [x]]) == GroupSizes(keys, groups) + 1
  {
    var init := keys[..|keys| - 1];
    if keys[|keys| - 1] == key {
      assert key !in init;
      GroupSizesOther(init, groups, key, groups[key] + [x]);
    } else {
      assert key in init;
      GroupSizesGrow(init, groups, key, x);
    }
  }

  /** The dictionary the reduce builds: each resource appended to the group
      of its category, the group created on first use. */
  function Grouped(s: seq<Resource>): (groups: map<string, seq<Resource>>)
    ensures forall k :: k in groups <==> k in CategoryKeys(s)
  {
    if s == [] then map[]
    else
      var prefix := Grouped(s[..|s| - 1]);
      var last := s[|s| - 1];
      var category := CategoryOf(last);
      prefix[category := (if category in prefix then prefix[category] else []) + [last]]
  }

  /** Each group holds exactly the resources of its category, in list order. */
  lemma {:induction false} GroupedIsFilter(s: seq<Resource>)
    ensures forall k :: k in Grouped(s) ==> Grouped(s)[k] == Filter(s, InCategory(k))
  {
    if s != [] {
      var init, last := s[..|s| - 1], s[|s| - 1];
      assert s == init + [last];
      GroupedIsFilter(init);
      var category := CategoryOf(last);
      forall k | k in Grouped(s) ensures Grouped(s)[k] == Filter(s, InCategory(k)) {
        FilterSnoc(init, last, InCategory(k));
        if k == category && category !in Grouped(init) {
          assert category !in CategoryKeys(init);
          FilterNone(init, InCategory(category));
        }
      }
    }
  }

  /** The group sizes add up to the length of the list: every resource is in
      exactly one group. */
  lemma {:induction false} GroupedSizes(s: seq<Resource>)
    ensures GroupSizes(CategoryKeys(s), Grouped(s)) == |s|
  {
    if s != [] {
      var init, last := s[..|s| - 1], s[|s| - 1];
      assert init + [last] == s;
      GroupedSizes(init);
      if CategoryOf(last) in Grouped(init) {
        SizesSeenCategory(init, last);
      } else {
        SizesNewCategory(init, last);
      }
    }
  }

  /** A resource of a category already grouped grows that group by one. */
  lemma SizesSeenCategory(init: seq<Resource>, last: Resource)
    requires CategoryOf(last) in Grouped(init)
    ensures GroupSizes(CategoryKeys(init + [last]), Grouped(init + [last]))
            == GroupSizes(CategoryKeys(init), Grouped(init)) + 1
  {
    var s := init + [last];
    assert s[..|s| - 1] == init && s[|s| - 1] == last;
    var keys, groups := CategoryKeys(init), Grouped(init);
    var category := CategoryOf(last);
    assert Grouped(s) == groups[category := groups[category] + [last]];
    assert CategoryKeys(s) == keys;
    GroupSizesGrow(keys, groups, category, last);
  }

  /** A resource of a new category opens a group of one, after the others. */
  lemma SizesNewCategory(init: seq<Resource>, last: Resource)
    requires CategoryOf(last) !in Grouped(init)
    ensures GroupSizes(CategoryKeys(init + [last]), Grouped(init + [last]))
            == GroupSizes(CategoryKeys(init), Grouped(init)) + 1
  {
    var keys, groups := CategoryKeys(init), Grouped(init);
    var category := CategoryOf(last);
    GroupedNew(init, last);
    KeysNew(init, last);
    GroupSizesOther(keys, groups, category, [last]);
    assert (keys + [category])[..|keys|] == keys;
  }

  lemma GroupedNew(init: seq<Resource>, last: Resource)
    requires CategoryOf(last) !in Grouped(init)
    ensures Grouped(init + [last]) == Grouped(init)[CategoryOf(last) := [last]]
  {
    var s := init + [last];
    assert s[..|s| - 1] == init && s[|s| - 1] == last;
    assert [] + [last] == [last];
  }

  lemma KeysNew(init: seq<Resource>, last: Resource)
    requires CategoryOf(last) !in Grouped(init)
    ensures CategoryKeys(init + [last]) == CategoryKeys(init) + [CategoryOf(last)]
  {
    var s := init + [last];
    assert s[..|s| - 1] == init && s[|s| - 1] == last;
  }

  /** The properties every `{}` inherits from `Object.prototype`. For such a
      category `acc[category]` is already truthy (a function or the prototype
      itself), so the reduce skips the `[]` and `.push` throws a TypeError. */
  const InheritedNames: set<string> :=
    {"constructor", "__proto__", "toString", "toLocaleString", "valueOf",
     "hasOwnProperty", "isPrototypeOf", "propertyIsEnumerable",
     "__defineGetter__", "__defineSetter__", "__lookupGetter__", "__lookupSetter__"}

  /** Some resource's category is an inherited property name. */
  predicate HitsInherited(s: seq<Resource>) {
    exists k :: 0 <= k < |s| && CategoryOf(s[k]) in InheritedNames
  }

  /** A hit in a prefix is a hit in the whole list. */
  lemma HitsPrefix(s: seq<Resource>, n: nat)
    requires n <= |s| && HitsInherited(s[..n])
    ensures HitsInherited(s)
  {
    var k :| 0 <= k < n && CategoryOf(s[..n][k]) in InheritedNames;
    assert s[..n][k] == s[k];
  }

  /** Extending a prefix without a hit by an ordinary category keeps it
      without a hit. */
  lemma NoHitStep(s: seq<Resource>, i: nat)
    requires i < |s| && !HitsInherited(s[..i]) && CategoryOf(s[i]) !in InheritedNames
    ensures !HitsInherited(s[..i + 1])
  {
    var t := s[..i + 1];
    forall k | 0 <= k < i + 1 ensures CategoryOf(t[k]) !in InheritedNames {
      if k < i {
        assert t[k] == s[..i][k];
      }
    }
  }

  /** One step of the reduce, on the keys and on the dictionary. */
  lemma GroupStep(s: seq<Resource>, i: nat)
    requires i < |s|
    ensures CategoryKeys(s[..i + 1]) ==
      if CategoryOf(s[i]) in Grouped(s[..i]) then CategoryKeys(s[..i]) else CategoryKeys(s[..i]) + [CategoryOf(s[i])]
    ensures Grouped(s[..i + 1]) ==
      Grouped(s[..i])[CategoryOf(s[i]) :=
        (if CategoryOf(s[i]) in Grouped(s[..i]) then Grouped(s[..i])[CategoryOf(s[i])] else []) + [s[i]]]
  {
    assert s[..i + 1][..i] == s[..i];
  }

  /** `groupedResources`: the reduce that fills the dictionary in one pass,
      along with its keys in creation order. `threw` reports the TypeError of
      an inherited category name, which aborts the render. */
  method GroupByCategory(filtered: seq<Resource>) returns (threw: bool, keys: seq<string>, groups: map<string, seq<Resource>>)
    ensures threw <==> HitsInherited(filtered)
    ensures !threw ==> keys == CategoryKeys(filtered) && groups == Grouped(filtered)
  {
    keys, groups := [], map[];
    var i := 0;
    while i < |filtered|
      invariant 0 <= i <= |filtered|
      invariant keys == CategoryKeys(filtered[..i])
      invariant groups == Grouped(filtered[..i])
      invariant !HitsInherited(filtered[..i])
    {
      var r := filtered[i];
      var category := CategoryOf(r);
      if category in InheritedNames {
        assert filtered[..i + 1][i] == r;
        HitsPrefix(filtered, i + 1);
        return true, keys, groups;
      }
      GroupStep(filtered, i);
      NoHitStep(filtered, i);
      if category !in groups {
        keys := keys + [category];
      }
      groups := groups[category := (if category in groups then groups[category] else []) + [r]];
      i := i + 1;
    }
    assert filtered[..i] == filtered;
    threw := false;
  }

  /** What the grouping promises: each resource lands in the group of its
      category (or "other"), groups keep the list's order, and the sizes add
      up to the list's length. */
  lemma GroupingPartitions(filtered: seq<Resource>)
    ensures forall k :: 0 <= k < |filtered| ==> CategoryOf(filtered[k]) in Grouped(filtered)
    ensures forall c :: c in Grouped(filtered) ==> Grouped(filtered)[c] == Filter(filtered, InCategory(c))
    ensures forall c :: c in Grouped(filtered) ==> IsSubsequence(Grouped(filtered)[c], filtered)
    ensures GroupSizes(CategoryKeys(filtered), Grouped(filtered)) == |filtered|
  {
    GroupedIsFilter(filtered);
    GroupedSizes(filtered);
    forall c | c in Grouped(filtered) ensures IsSubsequence(Grouped(filtered)[c], filtered) {
      FilterIsSubsequence(filtered, InCategory(c));
    }
  }

  /** The tab label: the category with its first character upper-cased. */
  function TabLabel(category: string): (shown: string)
    ensures |shown| == |category|
    ensures |category| > 0 ==> shown[0] == UpperChar(category[0]) && shown[1..] == category[1..]
  {
    if category == "" then "" else [UpperChar(category[0])] + category[1..]
  }
}
