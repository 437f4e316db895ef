/**
 * The product detail page: colour and image selection, the quantity stepper,
 * add-to-cart and purchase with a full or 50% payment checked against the
 * balance, the review form, and the discount badge.
 */
module ProductDetail {
  import opened Wrappers
  import opened Text

  /** The fields of the product that the page's handlers read. */
  datatype Product = Product(id: string, name: string, price: real, originalPrice: Option<real>)

  datatype Review = Review(id: string, userName: string, comment: string, date: string)

  datatype PaymentType = Full | Partial

  /** What a handler reports; the toasts and the silent early return. */
  datatype Outcome =
    | SizeRequired
    | AddedToCart(size: string)
    | PurchaseDialogOpened
    | NoProduct
    | InsufficientBalance
    | Purchased(amount: real)
    | CommentRequired
    | ReviewAdded

  /** The mock balance the page starts with; it has no setter. */
  const StartingBalance: real := 1250.0

  /** The author name given to a review written on this page. */
  const NewUserName: string := "مستخدم جديد"

  const MinQuantity: int := 1
  const MaxQuantity: int := 10

  /** The minus button is enabled unless `quantity <= 1`. */
  predicate CanDecrement(quantity: int)
  {
    !(quantity <= MinQuantity)
  }

  /** The plus button is enabled unless `quantity >= 10`. */
  predicate CanIncrement(quantity: int)
  {
    !(quantity >= MaxQuantity)
  }

  /** `Math.max(1, quantity - 1)`. */
  function Decremented(quantity: int): (r: int)
    ensures r >= MinQuantity
    ensures r <= quantity || quantity < MinQuantity
    ensures CanDecrement(quantity) ==> r == quantity - 1
  {
    if quantity - 1 < MinQuantity then MinQuantity else quantity - 1
  }

  /** Under the buttons' enabling rules the stepper never leaves [1, 10]. */
  lemma StepperStaysInRange(quantity: int)
    requires MinQuantity <= quantity <= MaxQuantity
    ensures CanDecrement(quantity) ==> MinQuantity <= Decremented(quantity) <= MaxQuantity
    ensures CanIncrement(quantity) ==> MinQuantity <= quantity + 1 <= MaxQuantity
  {
  }

  /** `paymentType === 'full' ? totalPrice : totalPrice * 0.5` with `totalPrice = price * quantity`. */
  function AmountToPay(price: real, quantity: int, paymentType: PaymentType): (r: real)
    ensures paymentType == Full ==> r == price * quantity as real
    ensures paymentType == Partial ==> 2.0 * r == price * quantity as real
    ensures 0.0 <= price && 0 <= quantity ==> 0.0 <= r <= price * quantity as real
  {
    var totalPrice := price * quantity as real;
    if paymentType == Full then totalPrice else totalPrice * 0.5
  }

  /** Whenever paying in full is affordable, so is paying half. */
  lemma PartialAffordableWhenFullIs(price: real, quantity: int, balance: real)
    requires 0.0 <= price && 0 <= quantity
    requires AmountToPay(price, quantity, Full) <= balance
    ensures AmountToPay(price, quantity, Partial) <= balance
  {
  }

  /** `Math.round`: the nearest integer, halves rounded up. */
  function Round(x: real): (r: int)
    ensures r as real - 0.5 <= x < r as real + 0.5
  {
    (x + 0.5).Floor
  }

  /** `discountPercentage`: 0 unless there is a product with a truthy (present, non-zero) original price. */
  function DiscountPercentage(product: Option<Product>): (d: int)
    ensures product.None? || product.value.originalPrice.None? ==> d == 0
    ensures product.Some? && product.value.originalPrice == Some(0.0) ==> d == 0
  {
    match product
    case None => 0
    case Some(p) =>
      match p.originalPrice
      case None => 0
      case Some(op) => if op == 0.0 then 0 else Round((op - p.price) / op * 100.0)
  }

  /** The saving as a percentage of the original price, before rounding. */
  function Saving(price: real, originalPrice: real): real
    requires originalPrice != 0.0
  {
    (originalPrice - price) / originalPrice * 100.0
  }

  /** A product on sale shows its saving rounded to the nearest whole percent, between 0 and 100. */
  lemma DiscountOfSale(p: Product, op: real)
    requires p.originalPrice == Some(op) && 0.0 < op
    ensures Saving(p.price, op) - 0.5 < DiscountPercentage(Some(p)) as real <= Saving(p.price, op) + 0.5
    ensures 0.0 <= p.price <= op ==> 0 <= DiscountPercentage(Some(p)) <= 100
    ensures p.price == op ==> DiscountPercentage(Some(p)) == 0
  {
    var f := (op - p.price) / op;
    assert f * op == op - p.price;
  }

  /** The page's state fields. */
  class ProductDetailPage {
    var product: Option<Product>
    var isLoading: bool
    var selectedImage: int
    var selectedColor: int
    var selectedSize: string
    var quantity: int
    var showPurchaseDialog: bool
    var paymentType: PaymentType
    const userBalance: real
    var newComment: string
    var reviews: seq<Review>

    /** The stepper keeps the quantity in [1, 10]. */
    ghost predicate Valid()
      reads this
    {
      MinQuantity <= quantity <= MaxQuantity
    }

    /** Mount: nothing loaded, first colour and image, no size, quantity 1, full payment. */
    constructor (initialReviews: seq<Review>)
      ensures product == None && isLoading
      ensures selectedImage == 0 && selectedColor == 0 && selectedSize == ""
      ensures quantity == 1 && !showPurchaseDialog && paymentType == Full
      ensures userBalance == StartingBalance && newComment == "" && reviews == initialReviews
      ensures Valid()
    {
      product := None;
      isLoading := true;
      selectedImage := 0;
      selectedColor := 0;
      selectedSize := "";
      quantity := 1;
      showPurchaseDialog := false;
      paymentType := Full;
      userBalance := StartingBalance;
      newComment := "";
      reviews := initialReviews;
    }

    /** The simulated fetch completes. */
    method Loaded(p: Product)
      modifies this`product, this`isLoading
      ensures product == Some(p) && !isLoading
    {
      product := Some(p);
      isLoading := false;
    }

    /** `handleColorChange`: colour k also shows image k; nothing else changes. */
    method HandleColorChange(colorIndex: int)
      modifies this`selectedColor, this`selectedImage
      ensures selectedColor == colorIndex && selectedImage == colorIndex
    {
      selectedColor := colorIndex;
      selectedImage := colorIndex;
    }

    /** A thumbnail click selects only the image. */
    method SelectImage(index: int)
      modifies this`selectedImage
      ensures selectedImage == index
    {
      selectedImage := index;
    }

    /** A size button click. */
    method SelectSize(size: string)
      modifies this`selectedSize
      ensures selectedSize == size
    {
      selectedSize := size;
    }

    /** The minus button: `max(1, quantity - 1)`, and no effect while it is disabled. */
    method DecrementQuantity()
      requires Valid()
      modifies this`quantity
      ensures quantity == if CanDecrement(old(quantity)) then Decremented(old(quantity)) else old(quantity)
      ensures Valid()
    {
      if CanDecrement(quantity) {
        quantity := Decremented(quantity);
      }
    }

    /** The plus button: `quantity + 1`, and no effect while it is disabled. */
    method IncrementQuantity()
      requires Valid()
      modifies this`quantity
      ensures quantity == if CanIncrement(old(quantity)) then old(quantity) + 1 else old(quantity)
      ensures Valid()
    {
      if CanIncrement(quantity) {
        quantity := quantity + 1;
      }
    }

    /** `handleAddToCart`: rejected while no size is selected; changes no state. */
    method HandleAddToCart() returns (outcome: Outcome)
      ensures selectedSize == "" ==> outcome == SizeRequired
      ensures selectedSize != "" ==> outcome == AddedToCart(selectedSize)
    {
      if selectedSize == "" {
        return SizeRequired;
      }
      outcome := AddedToCart(selectedSize);
    }

    /** `handlePurchase`: rejected while no size is selected, otherwise opens the confirmation dialog. */
    method HandlePurchase() returns (outcome: Outcome)
      modifies this`showPurchaseDialog
      ensures selectedSize == "" ==> outcome == SizeRequired && showPurchaseDialog == old(showPurchaseDialog)
      ensures selectedSize != "" ==> outcome == PurchaseDialogOpened && showPurchaseDialog
    {
      if selectedSize == "" {
        return SizeRequired;
      }
      showPurchaseDialog := true;
      outcome := PurchaseDialogOpened;
    }

    /** The payment radio buttons. */
    method SetPaymentType(t: PaymentType)
      modifies this`paymentType
      ensures paymentType == t
    {
      paymentType := t;
    }

    /** The dialog's cancel button, or dismissing it. */
    method ClosePurchaseDialog()
      modifies this`showPurchaseDialog
      ensures !showPurchaseDialog
    {
      showPurchaseDialog := false;
    }

    /**
     * `confirmPurchase`: with a product loaded, the amount for the chosen payment is charged
     * when it does not exceed the balance, and the dialog closes; otherwise the dialog stays.
     * The balance itself is never touched.
     */
    method ConfirmPurchase() returns (outcome: Outcome)
      modifies this`showPurchaseDialog
      ensures product.None? ==> outcome == NoProduct && showPurchaseDialog == old(showPurchaseDialog)
      ensures product.Some? && AmountToPay(product.value.price, quantity, paymentType) > userBalance ==>
        outcome == InsufficientBalance && showPurchaseDialog == old(showPurchaseDialog)
      ensures product.Some? && AmountToPay(product.value.price, quantity, paymentType) <= userBalance ==>
        outcome == Purchased(AmountToPay(product.value.price, quantity, paymentType)) && !showPurchaseDialog
      ensures outcome.Purchased? ==> outcome.amount <= userBalance
    {
      if product.None? {
        return NoProduct;
      }
      var amountToPay := AmountToPay(product.value.price, quantity, paymentType);
      if amountToPay > userBalance {
        return InsufficientBalance;
      }
      showPurchaseDialog := false;
      outcome := Purchased(amountToPay);
    }

    /** Typing in the review box. */
    method EditComment(text: string)
      modifies this`newComment
      ensures newComment == text
    {
      newComment := text;
    }

    /**
     * `handleAddReview`: a blank comment is rejected; otherwise a review with the trimmed
     * comment goes in front of the list and the box is cleared. The id and the date come
     * from the clock and are passed in.
     */
    method HandleAddReview(id: string, date: string) returns (outcome: Outcome)
      modifies this`reviews, this`newComment
      ensures AllSpace(old(newComment)) ==>
        outcome == CommentRequired && reviews == old(reviews) && newComment == old(newComment)
      ensures !AllSpace(old(newComment)) ==>
        && outcome == ReviewAdded
        && reviews == [Review(id, NewUserName, Trim(old(newComment)), date)] + old(reviews)
        && |reviews| == |old(reviews)| + 1
        && reviews[1..] == old(reviews)
        && reviews[0].comment != ""
        && newComment == ""
    {
      TrimEmptyIffAllSpace(newComment);
      var comment := Trim(newComment);
      if comment == "" {
        return CommentRequired;
      }
      var newReview := Review(id, NewUserName, comment, date);
      reviews := [newReview] + reviews;
      newComment := "";
      outcome := ReviewAdded;
    }
  }
}
