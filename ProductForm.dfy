/** The admin product form (components/ProductForm.tsx): the form record, the mapping that
    loads a product into it, the mapping that turns it into submitted product data, and the
    by-index edits of the image list. */
module ProductForm {
  import opened Types
  import opened Text
  import Seqs

  /** The form's state: tags are one comma-separated string, a missing original price is 0. */
  datatype FormData = FormData(
    name: string,
    price: real,
    originalPrice: real,
    image: string,
    images: seq<string>,
    category: string,
    description: string,
    brand: string,
    tags: string,
    inStock: bool)

  /** The empty form: one blank image field, category "Electronics", in stock. */
  function DefaultForm(): FormData
  {
    FormData("", 0.0, 0.0, "", [""], "Electronics", "", "", "", true)
  }

  /** Editing an existing product: `originalPrice || 0` and `tags.join(', ')`. */
  function LoadForm(p: Product): (r: FormData)
    ensures r.originalPrice == if p.originalPrice.Some? then p.originalPrice.value else 0.0
    ensures r.tags == Join(p.tags, ", ")
    ensures r.name == p.name && r.price == p.price && r.image == p.image && r.images == p.images
    ensures r.category == p.category && r.description == p.description && r.brand == p.brand
    ensures r.inStock == p.inStock
  {
    FormData(p.name, p.price, if p.originalPrice.Some? then p.originalPrice.value else 0.0,
      p.image, p.images, p.category, p.description, p.brand, Join(p.tags, ", "), p.inStock)
  }

  function NonEmpty(): string -> bool
  {
    (t: string) => t != ""
  }

  function Trimmed(): string -> string
  {
    (t: string) => Trim(t)
  }

  function NotBlank(): string -> bool
  {
    (img: string) => Trim(img) != ""
  }

  /** `tags.split(',').map(tag => tag.trim()).filter(tag => tag !== '')`: the trimmed
      comma-separated pieces, in order, each non-empty one kept as often as it occurs and the
      empty ones dropped; so no tag is empty or has whitespace at either end. */
  function ParseTags(s: string): (r: seq<string>)
    ensures Seqs.IsSubseq(r, Seqs.Map(Trimmed(), Split(s, ',')))
    ensures forall x :: multiset(r)[x] == if x != "" then multiset(Seqs.Map(Trimmed(), Split(s, ',')))[x] else 0
    ensures forall i :: 0 <= i < |r| ==> r[i] != "" && IsTrimmed(r[i])
  {
    var pieces := Seqs.Map(Trimmed(), Split(s, ','));
    forall i | 0 <= i < |pieces|
      ensures IsTrimmed(pieces[i])
    {
      TrimSpec(Split(s, ',')[i]);
    }
    Seqs.FilterIsSubseq(NonEmpty(), pieces);
    forall x
      ensures multiset(Seqs.Filter(NonEmpty(), pieces))[x] == if x != "" then multiset(pieces)[x] else 0
    {
      Seqs.FilterCount(NonEmpty(), pieces, x);
    }
    Seqs.Filter(NonEmpty(), pieces)
  }

  /** `images.filter(img => img.trim() !== '')`: the non-blank entries, untrimmed and in order,
      each kept as often as it occurs. */
  function KeptImages(images: seq<string>): (r: seq<string>)
    ensures Seqs.IsSubseq(r, images)
    ensures forall x :: multiset(r)[x] == if Trim(x) != "" then multiset(images)[x] else 0
    ensures forall i :: 0 <= i < |r| ==> Trim(r[i]) != ""
    ensures forall i :: 0 <= i < |images| && Trim(images[i]) != "" ==> images[i] in r
  {
    Seqs.FilterIsSubseq(NotBlank(), images);
    forall x
      ensures multiset(Seqs.Filter(NotBlank(), images))[x] == if Trim(x) != "" then multiset(images)[x] else 0
    {
      Seqs.FilterCount(NotBlank(), images, x);
    }
    Seqs.Filter(NotBlank(), images)
  }

  /** `formData.originalPrice || undefined`: 0 means absent. */
  function OriginalPriceOf(x: real): (r: Option<real>)
    ensures r.None? <==> x == 0.0
    ensures r.Some? ==> r.value == x
  {
    if x == 0.0 then None else Some(x)
  }

  /** `handleSubmit`: `createdAt` and `updatedAt` stand for its two `new Date().toISOString()` reads. */
  function Submit(fd: FormData, createdAt: string, updatedAt: string): (r: ProductData)
    ensures r.rating == 4.5 && r.reviews == 0
    ensures r.createdAt == Some(createdAt) && r.updatedAt == Some(updatedAt)
    ensures r.originalPrice == OriginalPriceOf(fd.originalPrice)
    ensures r.tags == ParseTags(fd.tags) && r.images == KeptImages(fd.images)
    ensures r.name == fd.name && r.price == fd.price && r.image == fd.image
    ensures r.category == fd.category && r.description == fd.description && r.brand == fd.brand
    ensures r.inStock == fd.inStock
  {
    ProductData(fd.name, fd.price, OriginalPriceOf(fd.originalPrice), fd.image, KeptImages(fd.images),
      fd.category, fd.description, 4.5, 0, fd.inStock, ParseTags(fd.tags), fd.brand,
      Some(createdAt), Some(updatedAt))
  }

  function SpaceBefore(): string -> string
  {
    (t: string) => " " + t
  }

  lemma JoinSpaceHead(x: string, ys: seq<string>)
    ensures Join([" " + x] + ys, ",") == " " + Join([x] + ys, ",")
  {
    if ys != [] {
      assert ([" " + x] + ys)[1..] == ys && ([x] + ys)[1..] == ys;
    }
  }

  /** Joining with ", " is joining with "," after putting a space before every part but the first. */
  lemma {:induction false} JoinCommaSpace(head: string, rest: seq<string>)
    ensures Join([head] + rest, ", ") == Join([head] + Seqs.Map(SpaceBefore(), rest), ",")
    decreases |rest|
  {
    if rest != [] {
      var tail := Seqs.Map(SpaceBefore(), rest[1..]);
      JoinCommaSpace(rest[0], rest[1..]);
      assert ([head] + rest)[1..] == [rest[0]] + rest[1..];
      assert Seqs.Map(SpaceBefore(), rest) == [" " + rest[0]] + tail;
      assert ([head] + Seqs.Map(SpaceBefore(), rest))[1..] == [" " + rest[0]] + tail;
      JoinSpaceHead(rest[0], tail);
    }
  }

  /** The pieces `[t0, " " + t1, " " + t2, ...]` that splitting `Join(tags, ", ")` at commas gives. */
  function Spaced(tags: seq<string>): seq<string>
    requires tags != []
  {
    [tags[0]] + Seqs.Map(SpaceBefore(), tags[1..])
  }

  lemma SpacedFacts(tags: seq<string>)
    requires tags != []
    requires forall i :: 0 <= i < |tags| ==> tags[i] != "" && IsTrimmed(tags[i]) && ',' !in tags[i]
    ensures |Spaced(tags)| == |tags|
    ensures forall k :: 0 <= k < |tags| ==> ',' !in Spaced(tags)[k]
    ensures Seqs.Map(Trimmed(), Spaced(tags)) == tags
  {
    var parts := Spaced(tags);
    forall k | 0 <= k < |parts|
      ensures ',' !in parts[k] && Trim(parts[k]) == tags[k]
    {
      TrimSpec(tags[k]);
      if k > 0 {
        assert parts[k] == " " + tags[k];
        TrimLeadingSpace(tags[k]);
      }
    }
  }

  /** An empty tag field gives no tags. */
  lemma NoTags()
    ensures ParseTags("") == []
  {
    var pieces := Seqs.Map(Trimmed(), Split("", ','));
    assert pieces == [Trim("")];
  }

  /** Splitting `Join(tags, ", ")` at commas gives the tags with a space before all but the first. */
  lemma SplitJoinedTags(tags: seq<string>)
    requires tags != []
    requires forall i :: 0 <= i < |tags| ==> tags[i] != "" && IsTrimmed(tags[i]) && ',' !in tags[i]
    ensures Split(Join(tags, ", "), ',') == Spaced(tags)
  {
    var parts := Spaced(tags);
    assert [tags[0]] + tags[1..] == tags;
    JoinCommaSpace(tags[0], tags[1..]);
    assert Join(tags, ", ") == Join(parts, [',']);
    SpacedFacts(tags);
    SplitJoin(parts, ',');
  }

  /** A tag list survives being loaded into the form and submitted again, when every tag is
      non-empty, trimmed and free of commas. */
  lemma TagsRoundTrip(tags: seq<string>)
    requires forall i :: 0 <= i < |tags| ==> tags[i] != "" && IsTrimmed(tags[i]) && ',' !in tags[i]
    ensures ParseTags(Join(tags, ", ")) == tags
  {
    if tags == [] {
      NoTags();
    } else {
      SplitJoinedTags(tags);
      SpacedFacts(tags);
      assert Seqs.Map(Trimmed(), Split(Join(tags, ", "), ',')) == tags;
      Seqs.FilterAll(NonEmpty(), tags);
    }
  }

  /** Loading a product into the form and submitting it gives back the product's data, stamped
      with rating 4.5, no reviews and the two submit-time stamps, when its original price is
      not 0, its images are all non-blank and its tags are as `TagsRoundTrip` needs. */
  lemma LoadThenSubmit(p: Product, createdAt: string, updatedAt: string)
    requires p.originalPrice != Some(0.0)
    requires forall i :: 0 <= i < |p.images| ==> Trim(p.images[i]) != ""
    requires forall i :: 0 <= i < |p.tags| ==> p.tags[i] != "" && IsTrimmed(p.tags[i]) && ',' !in p.tags[i]
    ensures Submit(LoadForm(p), createdAt, updatedAt)
         == DataOf(p).(rating := 4.5, reviews := 0, createdAt := Some(createdAt), updatedAt := Some(updatedAt))
  {
    TagsRoundTrip(p.tags);
    Seqs.FilterAll(NotBlank(), p.images);
  }

  /** `images.map((img, i) => i === index ? value : img)`: an index out of range changes nothing. */
  function ReplaceAt(images: seq<string>, index: int, value: string): (r: seq<string>)
    ensures |r| == |images|
    ensures forall i :: 0 <= i < |images| ==> r[i] == if i == index then value else images[i]
  {
    if 0 <= index < |images| then images[index := value] else images
  }

  /** `images.filter((_, i) => i !== index)`: exactly the entry at `index` goes, the others close
      up in order; an index out of range changes nothing. */
  function RemoveAt(images: seq<string>, index: int): (r: seq<string>)
    ensures 0 <= index < |images| ==>
      && |r| == |images| - 1
      && (forall i :: 0 <= i < |r| ==> r[i] == images[if i < index then i else i + 1])
      && multiset(r) + multiset{images[index]} == multiset(images)
    ensures !(0 <= index < |images|) ==> r == images
  {
    if 0 <= index < |images| then
      assert images == images[..index] + [images[index]] + images[index + 1..];
      images[..index] + images[index + 1..]
    else images
  }

  /** The form's state, edited field by field. */
  class FormState {
    var data: FormData

    /** The form opens empty, or loaded from the product being edited. */
    constructor (product: Option<Product>)
      ensures data == if product.Some? then LoadForm(product.value) else DefaultForm()
    {
      data := if product.Some? then LoadForm(product.value) else DefaultForm();
    }

    /** `addImageField`: one more, blank, image field at the end. */
    method AddImageField()
      modifies this
      ensures data == old(data).(images := old(data.images) + [""])
      ensures |data.images| == |old(data.images)| + 1
    {
      data := data.(images := data.images + [""]);
    }

    method UpdateImage(index: int, value: string)
      modifies this
      ensures data == old(data).(images := ReplaceAt(old(data.images), index, value))
    {
      data := data.(images := ReplaceAt(data.images, index, value));
    }

    method RemoveImage(index: int)
      modifies this
      ensures data == old(data).(images := RemoveAt(old(data.images), index))
    {
      data := data.(images := RemoveAt(data.images, index));
    }
  }
}
