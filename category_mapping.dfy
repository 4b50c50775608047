/** The bijective set mapping that `ClientData` keeps twice, once from
    clients to desktops and once from clients to layers.

    Its categories are fixed when it is built; elements come and go.  Each
    element belongs to exactly one category: the mapping is stored as a
    map from element to category, and the category-to-elements view is
    derived from it, so the two views cannot disagree. */
module CategoryMapping {
  import opened Wrappers

  /** The elements of `owner` that belong to one of the categories `cs`. */
  function MembersOf<C, E>(owner: map<E, C>, cs: set<C>): set<E>
  {
    set e | e in owner && owner[e] in cs
  }

  /** The categories' member sets partition the elements: every element
      lies in the members of its own category and of no other, and the
      members of all the categories are all the elements. */
  lemma MembersPartition<C, E>(owner: map<E, C>, cats: set<C>)
    requires owner.Values <= cats
    ensures MembersOf(owner, cats) == owner.Keys
    ensures forall e, c :: e in owner && c in cats ==> (e in MembersOf(owner, {c}) <==> owner[e] == c)
  {
    forall e | e in owner ensures owner[e] in cats {
      assert owner[e] in owner.Values;
    }
  }

  /** A category has no members exactly when its member count is zero. */
  lemma {:induction false} EmptyCategory<C, E>(owner: map<E, C>, c: C)
    ensures |MembersOf(owner, {c})| == 0 <==> forall e :: e in owner ==> owner[e] != c
  {
    if e :| e in owner && owner[e] == c {
      assert e in MembersOf(owner, {c});
    }
  }

  /** Moving one element changes the members of its old and its new
      category by that element, and no other category's members. */
  lemma MoveChangesTwoCategories<C, E>(owner: map<E, C>, e: E, c: C, d: C)
    requires e in owner
    ensures d == c ==> MembersOf(owner[e := c], {d}) == MembersOf(owner, {d}) + {e}
    ensures d != c && d == owner[e] ==> MembersOf(owner[e := c], {d}) == MembersOf(owner, {d}) - {e}
    ensures d != c && d != owner[e] ==> MembersOf(owner[e := c], {d}) == MembersOf(owner, {d})
  {
  }

  class BijectiveSetMapping<C(==), E(==)> {
    /** The categories, fixed at construction. */
    const cats: set<C>
    /** The category of every element. */
    var owner: map<E, C>

    ghost predicate Valid()
      reads this
    {
      owner.Values <= cats
    }

    /** A mapping over `categories` with no elements yet. */
    constructor (categories: set<C>)
      ensures Valid()
      ensures cats == categories && owner == map[]
    {
      cats := categories;
      owner := map[];
    }

    /** `categories()`. */
    function Categories(): (r: set<C>)
      ensures r == cats
    {
      cats
    }

    /** `add(category, element)`: files a new element under a category;
        KeyError for an unknown category, ValueError for an element that
        is already filed. */
    method Add(category: C, element: E) returns (r: Outcome)
      requires Valid()
      modifies this
      ensures Valid()
      ensures r == if category !in cats then Fail(KeyError)
                   else if element in old(owner) then Fail(ValueError)
                   else Pass
      ensures owner == if r.Pass? then old(owner)[element := category] else old(owner)
    {
      if category !in cats {
        return Fail(KeyError);
      }
      if element in owner {
        return Fail(ValueError);
      }
      owner := owner[element := category];
      r := Pass;
    }

    /** `remove(element)`: forgets an element; KeyError if it is unknown. */
    method Remove(element: E) returns (r: Outcome)
      requires Valid()
      modifies this
      ensures Valid()
      ensures r == if element in old(owner) then Pass else Fail(KeyError)
      ensures owner == old(owner) - {element}
    {
      if element !in owner {
        return Fail(KeyError);
      }
      owner := owner - {element};
      r := Pass;
    }

    /** `move(element, category)`: refiles an element; KeyError if the
        element or the category is unknown. */
    method Move(element: E, category: C) returns (r: Outcome)
      requires Valid()
      modifies this
      ensures Valid()
      ensures r == if element !in old(owner) || category !in cats then Fail(KeyError) else Pass
      ensures owner == if r.Pass? then old(owner)[element := category] else old(owner)
    {
      if element !in owner || category !in cats {
        return Fail(KeyError);
      }
      owner := owner[element := category];
      r := Pass;
    }

    /** `get_category_of(element)`: KeyError if the element is unknown. */
    function GetCategoryOf(element: E): (r: Result<C>)
      reads this
      requires Valid()
      ensures r.Ok? <==> element in owner
      ensures r.Ok? ==> r.value in cats && element in MembersOf(owner, {r.value})
    {
      if element in owner then Ok(owner[element]) else Err(KeyError)
    }

    /** `get_elements_of(*categories)`: the union of the categories'
        members; KeyError if one of them is unknown. */
    function GetElementsOf(cs: set<C>): (r: Result<set<E>>)
      reads this
      ensures r.Ok? <==> cs <= cats
      ensures r.Ok? ==> forall e :: e in r.value ==> e in owner && owner[e] in cs
      ensures r.Ok? ==> forall e :: e in owner && owner[e] in cs ==> e in r.value
    {
      if cs <= cats then Ok(MembersOf(owner, cs)) else Err(KeyError)
    }

    /** `self[category]`: the members of one category. */
    function Get(category: C): (r: Result<set<E>>)
      reads this
      ensures r.Ok? <==> category in cats
      ensures r.Ok? ==> forall e :: e in r.value ==> e in owner && owner[e] == category
      ensures r.Ok? ==> forall e :: e in owner && owner[e] == category ==> e in r.value
    {
      if category in cats then Ok(MembersOf(owner, {category})) else Err(KeyError)
    }

    /** `count_elements_of(category)`: how many elements the category
        holds, which is the size of what `Get` returns for it, and zero
        exactly when none of them is filed under it. */
    function CountElementsOf(category: C): (r: Result<nat>)
      reads this
      ensures r.Ok? <==> category in cats
      ensures r.Ok? ==> Get(category).Ok? && r.value == |Get(category).value|
      ensures r.Ok? ==> (r.value == 0 <==> forall e :: e in owner ==> owner[e] != category)
    {
      if category in cats then
        EmptyCategory(owner, category);
        Ok(|MembersOf(owner, {category})|)
      else Err(KeyError)
    }

    /** `is_element(element)`. */
    function IsElement(element: E): (r: bool)
      reads this
      ensures r <==> element in owner
    {
      element in owner
    }
  }
}
