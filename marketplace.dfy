/** The community marketplace: a fixed catalogue filtered by a search term, a
    category and a location, and the featured products. */
module Marketplace {
  import opened Strings
  import opened Lists

  datatype Product = Product(
    id: nat, title: string, description: string, price: string, seller: string,
    location: string, category: string, rating: real, reviews: nat,
    featured: bool, inStock: bool)

  /** The location dropdown: an id and its display name. */
  const Locations: seq<(string, string)> := [
    ("all", "All Locations"), ("soweto", "Soweto"), ("alexandra", "Alexandra"),
    ("khayelitsha", "Khayelitsha"), ("mitchells-plain", "Mitchells Plain"),
    ("mamelodi", "Mamelodi"), ("umlazi", "Umlazi"), ("mdantsane", "Mdantsane")]

  const Categories: seq<(string, string)> := [
    ("all", "All Categories"), ("food", "Food & Beverages"), ("crafts", "Arts & Crafts"),
    ("clothing", "Clothing & Fashion"), ("services", "Services"), ("agriculture", "Agriculture"),
    ("beauty", "Beauty & Personal Care"), ("electronics", "Electronics & Repairs"),
    ("home", "Home & Garden")]

  const Products: seq<Product> := [
    Product(1, "Fresh Vegetables Bundle",
            "Locally grown fresh vegetables including spinach, carrots, and potatoes",
            "R45", "Nomsa's Garden", "Soweto", "agriculture", 4.8, 23, true, true),
    Product(2, "Handmade Beaded Jewelry",
            "Beautiful traditional beaded necklaces and bracelets, perfect for special occasions",
            "R120", "Thandi's Crafts", "Alexandra", "crafts", 4.9, 45, false, true),
    Product(3, "Mobile Phone Repair Service",
            "Professional mobile phone repair service. Screen replacement, battery change, and more",
            "From R80", "Tech Solutions", "Khayelitsha", "services", 4.7, 67, true, true),
    Product(4, "Traditional Shweshwe Dresses",
            "Custom-made traditional dresses using authentic Shweshwe fabric",
            "R350", "Mama's Fashion", "Mamelodi", "clothing", 4.6, 34, false, true),
    Product(5, "Homemade Koeksisters",
            "Delicious traditional koeksisters made fresh daily. Perfect for special occasions",
            "R25 per dozen", "Sweet Treats Bakery", "Mitchells Plain", "food", 4.9, 89, true, true),
    Product(6, "Natural Hair Care Products",
            "Organic hair care products made with natural ingredients for African hair",
            "R65", "Natural Beauty Co", "Umlazi", "beauty", 4.8, 56, false, true)]

  /** The lower-cased term occurs in the lower-cased title or description. */
  predicate SearchHit(p: Product, term: string) {
    Contains(ToLower(p.title), ToLower(term)) || Contains(ToLower(p.description), ToLower(term))
  }

  predicate CategoryHit(p: Product, category: string) {
    category == "all" || p.category == category
  }

  /** The location test as written: the lower-cased product location must
      contain the lower-cased dropdown id. */
  predicate LocationHit(p: Product, location: string) {
    location == "all" || Contains(ToLower(p.location), ToLower(location))
  }

  /** The display name of a location id; an unknown id stands for itself. */
  function LocationName(location: string): (name: string)
    ensures forall i | 0 <= i < |Locations| && Locations[i].0 == location ::
              (forall j | 0 <= j < i :: Locations[j].0 != location) ==> name == Locations[i].1
  {
    NameIn(Locations, location)
  }

  function NameIn(table: seq<(string, string)>, id: string): (name: string)
    ensures forall i | 0 <= i < |table| && table[i].0 == id ::
              (forall j | 0 <= j < i :: table[j].0 != id) ==> name == table[i].1
    ensures (forall i | 0 <= i < |table| :: table[i].0 != id) ==> name == id
  {
    if table == [] then id
    else if table[0].0 == id then table[0].1
    else NameIn(table[1..], id)
  }

  /** The location test as intended: the product's location contains the
      selected location's display name. */
  predicate LocationHitIntended(p: Product, location: string) {
    location == "all" || Contains(ToLower(p.location), ToLower(LocationName(location)))
  }

  predicate Kept(p: Product, term: string, category: string, location: string) {
    SearchHit(p, term) && CategoryHit(p, category) && LocationHit(p, location)
  }

  predicate KeptIntended(p: Product, term: string, category: string, location: string) {
    SearchHit(p, term) && CategoryHit(p, category) && LocationHitIntended(p, location)
  }

  /** `filteredProducts`, as written. */
  function FilteredProducts(products: seq<Product>, term: string, category: string, location: string): (r: seq<Product>)
    ensures |r| <= |products|
  {
    Filter(products, (p: Product) => Kept(p, term, category, location))
  }

  /** `filteredProducts` with the intended location test. */
  function FilteredProductsIntended(products: seq<Product>, term: string, category: string, location: string): (r: seq<Product>)
    ensures |r| <= |products|
  {
    Filter(products, (p: Product) => KeptIntended(p, term, category, location))
  }

  function IsFeatured(p: Product): bool { p.featured }

  /** `featuredProducts`. */
  function FeaturedProducts(products: seq<Product>): (r: seq<Product>)
    ensures |r| <= |products|
  {
    Filter(products, IsFeatured)
  }

  /** A product is shown exactly when it is in the catalogue and passes the
      search, the category and the location id tests; the shown list keeps the
      catalogue's order. */
  lemma FilteredMember(products: seq<Product>, term: string, category: string, location: string, p: Product)
    ensures p in FilteredProducts(products, term, category, location) <==>
              p in products && SearchHit(p, term) && CategoryHit(p, category) && LocationHit(p, location)
    ensures IsSubsequence(FilteredProducts(products, term, category, location), products)
  {
    FilterMember(products, (p: Product) => Kept(p, term, category, location), p);
    FilterIsSubsequence(products, (p: Product) => Kept(p, term, category, location));
  }

  lemma FilteredMemberAll(products: seq<Product>, term: string, category: string, location: string)
    ensures forall p :: p in FilteredProducts(products, term, category, location) <==>
              p in products && Kept(p, term, category, location)
  {
    forall p ensures p in FilteredProducts(products, term, category, location) <==>
                     p in products && Kept(p, term, category, location) {
      FilteredMember(products, term, category, location, p);
    }
  }

  /** The same for the intended filter, with the display-name test. */
  lemma FilteredIntendedMember(products: seq<Product>, term: string, category: string, location: string, p: Product)
    ensures p in FilteredProductsIntended(products, term, category, location) <==>
              p in products && SearchHit(p, term) && CategoryHit(p, category) && LocationHitIntended(p, location)
    ensures IsSubsequence(FilteredProductsIntended(products, term, category, location), products)
  {
    FilterMember(products, (p: Product) => KeptIntended(p, term, category, location), p);
    FilterIsSubsequence(products, (p: Product) => KeptIntended(p, term, category, location));
  }

  /** An empty search with both dropdowns on `all` shows the whole catalogue,
      under either location test. */
  lemma NoFilterShowsAll(products: seq<Product>)
    ensures FilteredProducts(products, "", "all", "all") == products
    ensures FilteredProductsIntended(products, "", "all", "all") == products
  {
    forall i | 0 <= i < |products| ensures Kept(products[i], "", "all", "all") && KeptIntended(products[i], "", "all", "all") {
      ContainsEmpty(ToLower(products[i].title));
    }
    FilterAll(products, (p: Product) => Kept(p, "", "all", "all"));
    FilterAll(products, (p: Product) => KeptIntended(p, "", "all", "all"));
  }

  /** The featured list holds exactly the featured products, in order. */
  lemma FeaturedMember(products: seq<Product>, p: Product)
    ensures p in FeaturedProducts(products) <==> p in products && p.featured
    ensures IsSubsequence(FeaturedProducts(products), products)
  {
    FilterMember(products, IsFeatured, p);
    FilterIsSubsequence(products, IsFeatured);
  }

  /** As written, choosing Mitchells Plain never shows a product sold in
      Mitchells Plain: `mitchells plain` does not contain `mitchells-plain`. */
  lemma MitchellsPlainMissed(p: Product)
    requires p.location == "Mitchells Plain"
    ensures !LocationHit(p, "mitchells-plain")
  {
    var s, t := ToLower(p.location), ToLower("mitchells-plain");
    assert s[9] == ' ' && t[9] == '-';
  }

  /** As written, the catalogue filtered to Mitchells Plain is empty, whatever
      the search and the category. */
  lemma MitchellsPlainEmptyAsWritten(products: seq<Product>, term: string, category: string)
    requires products == Products
    ensures FilteredProducts(products, term, category, "mitchells-plain") == []
  {
    var t := ToLower("mitchells-plain");
    forall i | 0 <= i < |products| ensures !LocationHit(products[i], "mitchells-plain") {
      if i == 4 {
        MitchellsPlainMissed(products[i]);
      } else {
        assert |ToLower(products[i].location)| < |t|;
      }
    }
    FilterNone(products, (p: Product) => Kept(p, term, category, "mitchells-plain"));
  }

  /** The catalogue's featured products are its first, third and fifth. */
  lemma FeaturedCatalogue(products: seq<Product>)
    requires products == Products
    ensures FeaturedProducts(products) == [products[0], products[2], products[4]]
  {
    assert products == products[..1] + products[1..];
  }

  /** With the intended test every real location shows a product sold there,
      Mitchells Plain included. */
  lemma LocationHitsItsName(p: Product, i: nat)
    requires 1 <= i < |Locations| && p.location == Locations[i].1
    ensures LocationHitIntended(p, Locations[i].0)
  {
    forall j | 0 <= j < i ensures Locations[j].0 != Locations[i].0 {
      assert |Locations[j].0| != |Locations[i].0| || Locations[j].0[0] != Locations[i].0[0];
    }
    ContainsSelf(ToLower(p.location));
  }

  /** With the intended test a product sold in Mitchells Plain is shown under
      its location. */
  lemma MitchellsPlainFound(p: Product)
    requires p.location == "Mitchells Plain"
    ensures LocationHitIntended(p, "mitchells-plain")
  {
    LocationHitsItsName(p, 4);
  }

  class MarketplacePage {
    var searchTerm: string
    var selectedCategory: string
    var selectedLocation: string
    var showAddProduct: bool

    constructor ()
      ensures searchTerm == "" && selectedCategory == "all" && selectedLocation == "all" && !showAddProduct
    {
      searchTerm := "";
      selectedCategory := "all";
      selectedLocation := "all";
      showAddProduct := false;
    }

    /** The product grid for the current filters, as written. */
    function Shown(): (r: seq<Product>)
      reads this
      ensures forall p :: p in r <==> p in Products && Kept(p, searchTerm, selectedCategory, selectedLocation)
      ensures selectedLocation == "mitchells-plain" ==> r == []
    {
      FilteredMemberAll(Products, searchTerm, selectedCategory, selectedLocation);
      MitchellsPlainEmptyAsWritten(Products, searchTerm, selectedCategory);
      FilteredProducts(Products, searchTerm, selectedCategory, selectedLocation)
    }

    method SetSearchTerm(term: string)
      modifies this
      ensures searchTerm == term
      ensures selectedCategory == old(selectedCategory) && selectedLocation == old(selectedLocation)
      ensures showAddProduct == old(showAddProduct)
    {
      searchTerm := term;
    }

    method SetSelectedCategory(category: string)
      modifies this
      ensures selectedCategory == category
      ensures searchTerm == old(searchTerm) && selectedLocation == old(selectedLocation)
      ensures showAddProduct == old(showAddProduct)
    {
      selectedCategory := category;
    }

    method SetSelectedLocation(location: string)
      modifies this
      ensures selectedLocation == location
      ensures searchTerm == old(searchTerm) && selectedCategory == old(selectedCategory)
      ensures showAddProduct == old(showAddProduct)
    {
      selectedLocation := location;
    }

    method SetShowAddProduct(show: bool)
      modifies this
      ensures showAddProduct == show
      ensures searchTerm == old(searchTerm) && selectedCategory == old(selectedCategory)
      ensures selectedLocation == old(selectedLocation)
    {
      showAddProduct := show;
    }
  }
}
