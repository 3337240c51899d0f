/** The product detail modal (components/ProductModal.tsx): an image carousel whose index wraps
    around, and a quantity stepper that never goes below 1. */
module ProductModal {
  import opened Types

  /** `prev === len - 1 ? 0 : prev + 1`: one step forward, wrapping from the last image to the first. */
  function NextIndex(i: int, len: int): (r: int)
    ensures 0 <= i < len ==> r == (i + 1) % len && 0 <= r < len
  {
    if i == len - 1 then 0 else i + 1
  }

  /** `prev === 0 ? len - 1 : prev - 1`: one step back, wrapping from the first image to the last. */
  function PrevIndex(i: int, len: int): (r: int)
    ensures 0 <= i < len ==> r == (i + len - 1) % len && 0 <= r < len
    ensures i == 0 ==> r == len - 1
    ensures i != 0 ==> r == i - 1
  {
    if i == 0 then len - 1 else i - 1
  }

  /** Back after forward and forward after back return to the same image. */
  lemma StepsUndo(i: int, len: int)
    requires 0 <= i < len
    ensures PrevIndex(NextIndex(i, len), len) == i
    ensures NextIndex(PrevIndex(i, len), len) == i
  {
  }

  /** `n` presses of the forward button. */
  function Forward(i: int, n: nat, len: int): int
  {
    if n == 0 then i else NextIndex(Forward(i, n - 1, len), len)
  }

  /** `n` forward presses move the index `n` places round the cycle, so `len` presses come back. */
  lemma {:induction false} ForwardIsModular(i: int, n: nat, len: int)
    requires 0 <= i < len
    ensures Forward(i, n, len) == (i + n) % len
  {
    if n > 0 {
      ForwardIsModular(i, n - 1, len);
      var j := Forward(i, n - 1, len);
      ModStep(i + n - 1, len);
      assert NextIndex(j, len) == (j + 1) % len;
    }
  }

  /** The remainder is the unique `r` in `[0, len)` with `x == q * len + r`. */
  lemma ModUnique(x: int, q: int, r: int, len: int)
    requires len > 0 && x == q * len + r && 0 <= r < len
    ensures x % len == r
  {
    var d, m := x / len, x % len;
    var e := d - q;
    assert e * len == r - m;
  }

  lemma ModStep(k: int, len: int)
    requires k >= 0 && len > 0
    ensures ((k % len) + 1) % len == (k + 1) % len
  {
    var q, m := k / len, k % len;
    if m == len - 1 {
      ModUnique(k + 1, q + 1, 0, len);
      ModUnique(m + 1, 1, 0, len);
    } else {
      ModUnique(k + 1, q, m + 1, len);
      ModUnique(m + 1, 0, m + 1, len);
    }
  }

  /** The minus button: `Math.max(1, quantity - 1)`. */
  function Decrement(q: int): (r: int)
    ensures r >= 1
    ensures q > 1 ==> r == q - 1
    ensures q <= 1 ==> r == 1
  {
    if 1 >= q - 1 then 1 else q - 1
  }

  /** The plus button. */
  function Increment(q: int): (r: int)
    ensures r == q + 1
  {
    q + 1
  }

  /** The modal's state for one product. */
  class ModalState {
    var product: Product
    var currentImageIndex: int
    var quantity: int
    /** The `isOpen` prop; `onClose` clears it. */
    var isOpen: bool

    /** The quantity is at least 1; the index names an image whenever there is one. */
    ghost predicate Valid()
      reads this
    {
      quantity >= 1 && (|product.images| > 0 ==> 0 <= currentImageIndex < |product.images|)
    }

    constructor (p: Product)
      ensures product == p && currentImageIndex == 0 && quantity == 1 && isOpen && Valid()
    {
      product := p;
      currentImageIndex := 0;
      quantity := 1;
      isOpen := true;
    }

    /** `onClose` from the X button or the backdrop. */
    method Close()
      modifies this`isOpen
      ensures !isOpen
    {
      isOpen := false;
    }

    /** The forward arrow, shown only when the product has more than one image. */
    method NextImage()
      requires |product.images| > 1
      modifies this`currentImageIndex
      ensures currentImageIndex == NextIndex(old(currentImageIndex), |product.images|)
      ensures old(Valid()) ==> Valid()
    {
      currentImageIndex := if currentImageIndex == |product.images| - 1 then 0 else currentImageIndex + 1;
    }

    /** The back arrow, shown only when the product has more than one image. */
    method PrevImage()
      requires |product.images| > 1
      modifies this`currentImageIndex
      ensures currentImageIndex == PrevIndex(old(currentImageIndex), |product.images|)
      ensures old(Valid()) ==> Valid()
    {
      currentImageIndex := if currentImageIndex == 0 then |product.images| - 1 else currentImageIndex - 1;
    }

    /** An indicator dot, one per image, shown only when there is more than one. */
    method SelectImage(index: int)
      requires |product.images| > 1 && 0 <= index < |product.images|
      modifies this`currentImageIndex
      ensures currentImageIndex == index
      ensures old(Valid()) ==> Valid()
    {
      currentImageIndex := index;
    }

    method DecrementQuantity()
      modifies this`quantity
      ensures quantity == Decrement(old(quantity)) && quantity >= 1
      ensures old(Valid()) ==> Valid()
    {
      quantity := if 1 >= quantity - 1 then 1 else quantity - 1;
    }

    method IncrementQuantity()
      modifies this`quantity
      ensures quantity == old(quantity) + 1
      ensures old(Valid()) ==> Valid()
    {
      quantity := quantity + 1;
    }

    /** `handleAddToCart`: hands the product and the current quantity to the cart, then closes
        the modal. The button is disabled while the product is out of stock. */
    method AddToCart() returns (item: Product, count: int)
      requires product.inStock
      requires Valid()
      modifies this`isOpen
      ensures item == product && count == quantity && count >= 1
      ensures !isOpen
    {
      item, count := product, quantity;
      isOpen := false;
    }
  }
}
