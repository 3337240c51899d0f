/** The six seed products, the category list and the brand list (data/products.ts). */
module Seed {
  import opened Types

  function Pexels(photo: string): string
  {
    "https://images.pexels.com/photos/" + photo + "/pexels-photo-" + photo + ".jpeg?auto=compress&cs=tinysrgb&w=800"
  }

  const Headphones: Product :=
    Product("1", "Premium Wireless Headphones", 299.0, Some(399.0),
      Pexels("3945667"),
      [Pexels("3945667"),
       Pexels("205926")],
      "Electronics",
      "High-quality wireless headphones with noise cancellation and premium sound quality.",
      4.8, 127, true, ["wireless", "premium", "noise-cancelling"], "AudioTech", None, None)

  const FitnessWatch: Product :=
    Product("2", "Smart Fitness Watch", 249.0, None,
      Pexels("437037"),
      [Pexels("437037")],
      "Electronics",
      "Advanced fitness tracking with heart rate monitoring and GPS.",
      4.6, 89, true, ["fitness", "smart", "GPS"], "FitTech", None, None)

  const Backpack: Product :=
    Product("3", "Minimalist Backpack", 89.0, Some(120.0),
      Pexels("2905238"),
      [Pexels("2905238")],
      "Fashion",
      "Sleek, minimalist design perfect for daily commuting and travel.",
      4.7, 203, true, ["minimalist", "travel", "daily"], "UrbanCarry", None, None)

  const TeaSet: Product :=
    Product("4", "Organic Green Tea Set", 45.0, None,
      Pexels("1638280"),
      [Pexels("1638280")],
      "Food & Beverage",
      "Premium organic green tea collection with traditional brewing accessories.",
      4.9, 156, true, ["organic", "tea", "premium"], "ZenLeaf", None, None)

  const CameraLens: Product :=
    Product("5", "Professional Camera Lens", 899.0, None,
      Pexels("90946"),
      [Pexels("90946")],
      "Electronics",
      "Professional-grade camera lens for stunning photography.",
      4.9, 67, false, ["professional", "photography", "lens"], "LensCraft", None, None)

  const CoffeeBeans: Product :=
    Product("6", "Artisan Coffee Beans", 24.0, None,
      Pexels("894695"),
      [Pexels("894695")],
      "Food & Beverage",
      "Single-origin artisan coffee beans, expertly roasted for rich flavor.",
      4.5, 234, true, ["artisan", "coffee", "single-origin"], "RoastMaster", None, None)

  const Products: seq<Product> :=
    [Headphones, FitnessWatch, Backpack, TeaSet, CameraLens, CoffeeBeans]

  const Categories: seq<string> := ["All", "Electronics", "Fashion", "Food & Beverage"]

  const Brands: seq<string> := ["All", "AudioTech", "FitTech", "UrbanCarry", "ZenLeaf", "LensCraft", "RoastMaster"]
}
