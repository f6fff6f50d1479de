/** The chat context shared by the storefront: whether the chat panel is
    expanded and which product the shopper picked for the chat to talk
    about. */
module ChatContextState {
  import opened Wrappers

  datatype Product = Product(id: string, name: string, team: string, priceSale: int)

  /** The provider's two pieces of state. */
  datatype ChatState = ChatState(isExpanded: bool, selectedProduct: Option<Product>)

  const InitialState: ChatState := ChatState(true, None)

  const OutsideProviderMessage: string := "useChatContext must be used within a ChatProvider"

  /** `toggleExpanded`: `setIsExpanded(prev => !prev)`. */
  function Toggle(s: ChatState): (r: ChatState)
    ensures r.isExpanded != s.isExpanded && r.selectedProduct == s.selectedProduct
  {
    s.(isExpanded := !s.isExpanded)
  }

  /** `selectProduct`: the product is selected and the chat expanded. */
  function Select(s: ChatState, p: Product): (r: ChatState)
    ensures r.selectedProduct == Some(p) && r.isExpanded
  {
    ChatState(true, Some(p))
  }

  /** `clearSelectedProduct`: the selection is dropped, the panel stays as it is. */
  function Clear(s: ChatState): (r: ChatState)
    ensures r.selectedProduct.None? && r.isExpanded == s.isExpanded
  {
    s.(selectedProduct := None)
  }

  /** Toggling twice changes nothing. */
  lemma ToggleTwice(s: ChatState)
    ensures Toggle(Toggle(s)) == s
  {
  }

  /** Selecting, then clearing, leaves the chat expanded with nothing
      selected, whatever the state before. */
  lemma ClearAfterSelect(s: ChatState, p: Product)
    ensures Clear(Select(s, p)) == ChatState(true, None)
  {
  }

  /** Selecting depends only on the product: a second selection replaces
      the first. */
  lemma SelectReplaces(s: ChatState, p: Product, q: Product)
    ensures Select(Select(s, p), q) == Select(s, q)
  {
  }

  /** The provider: `isExpanded` and `selectedProduct` with their setters. */
  class ChatProvider {
    var isExpanded: bool
    var selectedProduct: Option<Product>

    function State(): ChatState
      reads this
    {
      ChatState(isExpanded, selectedProduct)
    }

    constructor ()
      ensures State() == InitialState
    {
      isExpanded := true;
      selectedProduct := None;
    }

    method SetIsExpanded(expanded: bool)
      modifies this`isExpanded
      ensures State() == old(State()).(isExpanded := expanded)
    {
      isExpanded := expanded;
    }

    method ToggleExpanded()
      modifies this`isExpanded
      ensures State() == Toggle(old(State()))
    {
      isExpanded := !isExpanded;
    }

    method SelectProduct(p: Product)
      modifies this
      ensures State() == Select(old(State()), p)
    {
      selectedProduct := Some(p);
      isExpanded := true;
    }

    method ClearSelectedProduct()
      modifies this`selectedProduct
      ensures State() == Clear(old(State()))
    {
      selectedProduct := None;
    }
  }

  /** `useChatContext`: the nearest provider, or the error thrown when there
      is none. */
  function UseChatContext(context: Option<ChatProvider>): (r: Result<ChatProvider, string>)
    ensures r.Failure? <==> context.None?
    ensures r.Failure? ==> r.error == OutsideProviderMessage
    ensures r.Success? ==> r.value == context.value
  {
    match context
    case None => Failure(OutsideProviderMessage)
    case Some(c) => Success(c)
  }
}
