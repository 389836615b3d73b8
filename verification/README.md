# Cart state container

A Dafny model of the shopping-cart provider of a React Native marketplace app
(`src/hooks/cart.tsx`). The cart is an ordered list of product lines
(`id`, `title`, `image_url`, `price`, `quantity`). Three operations replace
the list wholesale:

- `addToCart` adds one more of an existing line, or appends a new line with
  quantity 1.
- `increment` raises a line's quantity by 1.
- `decrement` lowers a line's quantity by 1. It then drops every line whose
  quantity is no longer above 0.

After each operation the provider writes the new list to a key-value store
under the key `@GoMarketplace:products`. On mount it reads that key back, and
a present payload replaces the list.

The model is the single module `Cart` in `cart.dfy`:

- The list transformations are pure functions over `seq<Product>`.
  - `Find` is the `find` call.
  - `AdjustAll` is the `map` call; `Adjust` is its per-item callback.
  - `KeepInCart` is the `filter` call.
  - `Added`, `Incremented` and `Decremented` are the three new lists.
- Lemmas relate these functions to each other and to the cart invariant
  `ValidCart`: unique ids, and every quantity at least 1.
- The provider is the class `Cart.CartProvider`.
  - `products` is the React state.
  - `storage` is the key-value store, a `map<string, seq<Product>>`. A missing
    key models an empty read.
  - Each of the three operations assigns both fields from the corresponding pure
    function. Loading only reads the store, and the constructor starts from an
    empty list.

The JavaScript `map` touches every line whose id matches, not only the first
one. The model keeps that behaviour. The lemmas that speak of "the" matching
line therefore assume unique ids.

## Model

| member | source | states |
|---|---|---|
| Cart.Find | src/hooks/cart.tsx:48 | finds a line exactly when the id occurs in the cart; the line found carries that id and is the first such line |
| Cart.Adjust | src/hooks/cart.tsx:89-91 | the callback changes nothing but the quantity; a line with the matching id gains `delta` (+1 at lines 52-54 and 72-74, -1 here) and any other line keeps its quantity |
| Cart.AdjustAll | src/hooks/cart.tsx:71-75 | the mapped list keeps length and order; each position holds the callback applied to the line at that position |
| Cart.KeepInCart | src/hooks/cart.tsx:94 | the filtered list has only lines with quantity above 0; it holds exactly the input's lines with quantity above 0 and is no longer than the input; an all-positive list is returned unchanged |
| Cart.Added | src/hooks/cart.tsx:47-58 | with a new id: the old list followed by exactly one new line with the incoming fields and quantity 1. With a known id: same length, each matching line gains 1 and keeps its stored title, image and price, and every other line is unchanged |
| Cart.Incremented | src/hooks/cart.tsx:71-75 | same length and order; matching lines gain exactly 1 and keep every other field; other lines are unchanged; with an absent id the list is returned unchanged |
| Cart.Decremented | src/hooks/cart.tsx:88-94 | the result never holds a line with quantity 0 or less; it is no longer than the input; each surviving line is an input line after the per-line decrement, and conversely every input line whose decremented quantity is above 0 survives; survivors keep their relative order by `KeepInCartAppend` |
| Cart.KeepInCartAppend | src/hooks/cart.tsx:94 | filtering a concatenation is the concatenation of the filtered parts, so survivors keep their relative order |
| Cart.KeepInCartUniqueIds | src/hooks/cart.tsx:94 | filtering a list with unique ids leaves the ids unique |
| Cart.AdjustAllUnique | src/hooks/cart.tsx:88-92 | on a cart with unique ids, the map changes only the line at the matching index, and only its quantity |
| Cart.KeepInCartMiddle | src/hooks/cart.tsx:94 | between two all-positive stretches, the filter keeps or drops only the middle line, according to its quantity |
| Cart.DecrementedPresent | src/hooks/cart.tsx:88-94 | on a valid cart, a line with quantity 1 is removed and a line with a larger quantity drops by exactly 1; all other lines stay in place, unchanged |
| Cart.DecrementedAbsent | src/hooks/cart.tsx:88-94 | when every quantity is at least 1, decrementing an absent id returns the cart unchanged |
| Cart.AddedExistingIsIncremented | src/hooks/cart.tsx:50-55 | addToCart on an id already in the cart yields the same list as increment on that id |
| Cart.AddedValid | src/hooks/cart.tsx:45-58 | addToCart keeps ids unique and every quantity at least 1 |
| Cart.IncrementedValid | src/hooks/cart.tsx:69-75 | increment keeps ids unique and every quantity at least 1 |
| Cart.DecrementedValid | src/hooks/cart.tsx:86-94 | decrement keeps ids unique and every quantity at least 1 |
| Cart.IncrementThenDecrement | src/hooks/cart.tsx:71-94 | when every quantity is at least 1, increment then decrement of any id returns the original list |
| Cart.AddNewThenDecrement | src/hooks/cart.tsx:56-94 | when every quantity is at least 1, adding a product whose id is new and then decrementing it returns the original list |
| Cart.CartProvider.constructor | src/hooks/cart.tsx:29 | the provider starts with an empty list and leaves the store untouched |
| Cart.CartProvider.LoadProducts | src/hooks/cart.tsx:32-39 | a payload present under the key replaces the list wholesale; without one the list is left alone; the store is not written |
| Cart.CartProvider.AddToCart | src/hooks/cart.tsx:45-67 | the list becomes `Added` of the old list; exactly the cart key of the store is overwritten with that list; the cart invariant is kept |
| Cart.CartProvider.Increment | src/hooks/cart.tsx:69-84 | the list becomes `Incremented` of the old list; exactly the cart key of the store is overwritten with that list; the cart invariant is kept |
| Cart.CartProvider.Decrement | src/hooks/cart.tsx:86-101 | the list becomes `Decremented` of the old list, with every quantity above 0; exactly the cart key of the store is overwritten with that list; the cart invariant is kept |

## Left out

- The `AsyncStorage.getItem`/`setItem` calls and their `await`s are not modelled as asynchronous I/O. The store is a map field, read or assigned synchronously in each method.
- `JSON.stringify`/`JSON.parse` are not modelled. The stored payload is the list itself, so a malformed payload and a `JSON.parse` exception cannot arise.
- A payload is not validated on load, so it may break `ValidCart`. The provider methods therefore promise to keep the invariant only when it held before.
- Overlapping persistence writes are not modelled. The model cannot express two `setItem` calls in flight with the last one winning on the key. Nor can it express a load that completes after an operation has already run.
- React wiring is not modelled: `createContext`, `useState`, `useEffect`, `useCallback`, `useMemo` and the provider JSX. The same goes for re-rendering observers.
- `useCart` and its error for a missing provider are not modelled. They check framework configuration and hold no cart logic.
- `price` is a `real` and is never computed with. JavaScript floating point is not modelled.
- `quantity` is an unbounded `int`. In the source it is a JavaScript `number`, so a payload could carry a non-integer quantity, and `+ 1` above 2^53 can be lost to rounding; neither is modelled.
- Stale snapshots are not modelled. `addToCart`, `increment` and `decrement` are memoised on `products` (src/hooks/cart.tsx:66, 83, 100) and read the list captured at the last render. Two calls before a re-render both start from that list and the later result replaces the earlier one, so `increment(id); increment(id)` can add 1, not 2. The model's methods always read the current field.
- Storage failures are not modelled. A rejected `setItem` (src/hooks/cart.tsx:61, 78, 95) would leave `products` updated and the store stale; a rejected `getItem` (src/hooks/cart.tsx:33) would leave the list empty. In the model every write succeeds, which is why `Persisted()` holds after each operation.
- The truthiness test on the stored string counts an empty-string payload as absent. The model has no such payload, because the store holds lists rather than text.
