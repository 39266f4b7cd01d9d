/** The gallery (frontend/src/components/Gallery.jsx): fixed categories and items, and the list
    shown for the active category. */
module Gallery {
  import opened Seqs

  datatype Category = Category(id: string, name: string)

  const Categories: seq<Category> := [
    Category("all", "SHOW ALL"),
    Category("decorations", "DECORATIONS"),
    Category("photography", "PHOTOGRAPHY & VIDEOGRAPHY"),
    Category("baja", "BAJA (MUSIC)"),
    Category("venue", "VENUE"),
    Category("clothing", "CLOTHING"),
    Category("makeup", "MAKEUP"),
    Category("invitation", "INVITATION CARDS")
  ]

  /** A gallery item; its image and description are not modelled. */
  datatype GalleryItem = GalleryItem(id: int, title: string, date: string, category: string)

  const GalleryItems: seq<GalleryItem> := [
    GalleryItem(1, "Ishwar weds Mamata", "15 May, 2023", "photography"),
    GalleryItem(2, "Surakshya Pant \U{2764}\U{FE0F} Manav Subedi", "06 April, 2023", "venue"),
    GalleryItem(3, "Foto Fusion", "26 March, 2023", "decorations"),
    GalleryItem(4, "Anu Jha \U{2764}\U{FE0F} Sumit Mishra", "24 January, 2023", "clothing"),
    GalleryItem(5, "Sunil Weds Vandana", "09 January, 2023", "makeup"),
    GalleryItem(6, "Wed Highlights", "02 January, 2023", "invitation")
  ]

  /** The component's state. */
  datatype GalleryState = GalleryState(activeCategory: string)

  const InitialState := GalleryState("all")

  /** `handleCategoryChange`: the active category becomes the one clicked. */
  function HandleCategoryChange(st: GalleryState, categoryId: string): (r: GalleryState)
    ensures r.activeCategory == categoryId
  {
    st.(activeCategory := categoryId)
  }

  function InCategory(active: string): GalleryItem -> bool
  {
    (item: GalleryItem) => item.category == active
  }

  /** `filteredItems`: every item for "all", otherwise the items of the active category; order is
      kept either way. */
  function FilteredItems(items: seq<GalleryItem>, active: string): (r: seq<GalleryItem>)
    ensures active == "all" ==> r == items
    ensures active != "all" ==> forall x :: x in r <==> x in items && x.category == active
    ensures SubsequenceOf(r, items)
  {
    if active == "all" then
      SubsequenceOfSelf(items);
      items
    else Filter(items, InCategory(active))
  }

  /** A listed category with no items, such as "baja", shows nothing. */
  lemma BajaShowsNothing()
    ensures FilteredItems(GalleryItems, "baja") == []
  {
    FilterDropsAll(GalleryItems, InCategory("baja"));
  }

  /** Every item belongs to a listed category other than "all", so each shows up under its
      own tab. */
  lemma ItemsInListedCategories()
    ensures forall x :: x in GalleryItems ==>
              x.category != "all" && (exists c :: c in Categories && c.id == x.category)
              && x in FilteredItems(GalleryItems, x.category)
  {
    assert Categories[1].id == "decorations" && Categories[2].id == "photography";
    assert Categories[4].id == "venue" && Categories[5].id == "clothing";
    assert Categories[6].id == "makeup" && Categories[7].id == "invitation";
  }
}
