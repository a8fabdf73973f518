# Lending iterators, modelled in Dafny

This project models the runtime behaviour of a small Rust lending-iterator library
(`hrtb-lending-iterator`). A lending iterator's `next` may return an item that borrows from the
iterator itself, valid only until the following call. The library provides:

- the adapters `take`, `take_while`, `map`, `inspect` and `enumerate`;
- the consuming operations `fold` and `for_each`;
- the bridges between lending and ordinary iteration (`from_iter`, `from_into_iter`, `into_iter`,
  `into_into_iter`, `to_owned`, `to_into_owned_item`);
- the `windows_mut` source, which lends mutable, overlapping, fixed-size windows of a slice, one
  position per call.

## How the model is built

- **An iterator is its script.** `Scripts.Source` has a field `pending: seq<Option<T>>`: the
  results its successive `next` calls will return, then the end signal forever. A `None` inside a
  script is an end signal after which the iterator resumes. Rust iterators may do that, and
  `Take` and `TakeWhile` forward such a `None` as it is.
- **Adapters are classes.** Each adapter owns its inner iterator and keeps its own state
  (`Take.remaining`, `TakeWhile.ended`, `Enumerate.count`, `Inspect.env`).
  - Each adapter's `Next` states its field updates and what it does with the inner iterator.
  - Each adapter has a ghost `Rest()`: the script the adapter will itself produce. It is given by
    a pure function of the adapter's state and the inner script (`TakeScript`, `TakeWhileScript`,
    `EnumerateScript`, `MapScript`).
  - Every adapter's `Next` proves `r == Head(old(Rest())) && Rest() == Tail(old(Rest()))`. So an adapter
    behaves exactly like a `Source` whose script is `Rest()`. The lemmas relate those script
    functions to the inner iterator's items (`Items`: what a consumer sees up to the first end
    signal; `Values`: every item across end signals).
- **Closures are pure values.** Predicates and map functions are pure functions. An `FnMut`
  callback (`inspect`, `for_each`) is modelled by its effect on the state it captures:
  `(E, T) -> E`.
- **`windows_mut` works on a Dafny `array`.** `Next` returns the window's contents and marks the
  window live. `Get` and `Set` read and write through the live window. `Set` can change only that
  window's part of the array.
- **Copy-out.** `to_owned` is modelled over `Lines.BufferLender`. That lender writes each item
  into one buffer cell it owns and lends the same reference on every call, like the line reader
  in the tests. The owned copy is the value itself, so earlier copies keep their values when the
  buffer is overwritten.

Three behaviours of the code worth noting:

- The window size may be 0. That gives `|slice| + 1` empty windows.
- After the last window, the position is `|slice| - W + 1`, not `|slice| - W`.
- `Take` and `TakeWhile` are not sticky on an inner end signal. `Take` still uses up one call,
  and `TakeWhile` ends for good only on a rejected item.

## Model

| member | source | states |
|---|---|---|
| `Scripts.Source.Next` | src/traits/lending_iterator.rs:50-51 | `next` returns the head of the script (the end signal once the script is used up), and the script advances by one call |
| `LendingIterator.Take.constructor` | src/traits/lending_iterator.rs:55-63 | `take(n)` wraps the iterator itself with `remaining == n` |
| `LendingIterator.Take.Next` | src/traits/lending_iterator.rs:173-180 | with calls remaining: `remaining` drops by exactly 1 and the result is exactly the inner result, end signal included; at 0: the end signal, `remaining` stays 0 and the inner iterator is not advanced; the adapter produces `TakeScript(remaining, inner)` |
| `LendingIterator.TakeItems` | src/traits/lending_iterator.rs:173-180 | over any inner script, `take(n)` yields the first `min(n, k)` of the inner's `k` items in order |
| `LendingIterator.TakeAtMost` | src/traits/lending_iterator.rs:174-179 | whatever the inner iterator does, even resuming after an end signal, `take(n)` yields at most `n` items in all |
| `LendingIterator.TakeOfSequence` | src/traits/lending_iterator.rs:53-63 | over a finite sequence `xs`, `take(n)` yields `xs[..min(n, |xs|)]` |
| `LendingIterator.TakeWhile` | src/traits/lending_iterator.rs:67-77 | `take_while(p)` builds the adapter over the iterator with predicate `p` and `ended == false` |
| `LendingIterator.Inspect` | src/traits/lending_iterator.rs:81-87 | `inspect(f)` builds the adapter over the iterator, with no calls made yet |
| `LendingIterator.Map` | src/traits/lending_iterator.rs:91-97 | `map(f)` builds the adapter over the iterator with function `f` |
| `LendingIterator.Fold` | src/traits/lending_iterator.rs:101-111 | `fold(init, f)` returns the left fold of `f` from `init` over every item up to the first end signal, and consumes the script through that end signal |
| `LendingIterator.ForEach` | src/traits/lending_iterator.rs:114-119 | `for_each(f)` is `fold` threading the callback's captured state: that state ends as the left fold of the callback over the items |
| `LendingIterator.ForEachOncePerItem` | src/traits/lending_iterator.rs:113-119 | a recording callback run by `for_each` logs exactly the items, once each, in order |
| `LendingIterator.IntoIter` | src/traits/lending_iterator.rs:130-136 | `into_iter()` wraps the lending iterator itself; `into_inner` gives it back |
| `LendingIterator.ToOwned` | src/traits/lending_iterator.rs:144-149 | `to_owned()` wraps the lending iterator itself |
| `LendingIterator.Enumerate` | src/traits/lending_iterator.rs:153-158 | `enumerate()` is `Enumerate::new`: count 0 over the iterator |
| `TakeWhileAdapter.TakeWhile.Next` | src/adapters/take_while.rs:34-46 | once ended: the end signal, the inner iterator is not advanced, `ended` stays true; otherwise one inner call: an inner end signal is passed on with `ended` unchanged, an accepted item is returned unchanged, and a rejected item is consumed, never returned, and sets `ended`; the adapter produces `TakeWhileScript` |
| `TakeWhileAdapter.TakeWhileItems` | src/adapters/take_while.rs:34-46 | what a consumer collects is exactly the longest prefix of the inner items on which the predicate holds |
| `TakeWhileAdapter.TakeWhileOnlyAccepted` | src/adapters/take_while.rs:39-44 | no item the predicate rejects is ever returned, even across inner end signals |
| `TakeWhileAdapter.TakeWhileStopsAtFailure` | src/adapters/take_while.rs:41-44 | if the predicate fails on element `k`, at most `k` items are yielded: none from `k` on, even if later ones would pass |
| `EnumerateAdapter.Enumerate.constructor` | src/adapters/enumerate.rs:16-18 | `new` starts the count at 0 |
| `EnumerateAdapter.Enumerate.Next` | src/adapters/enumerate.rs:26-31 | one inner call; on an item `a` returns `(count, a)` with `a` unchanged and the count goes up by exactly 1; on the end signal returns it and the count is unchanged |
| `EnumerateAdapter.EnumerateValues` | src/adapters/enumerate.rs:26-31 | across all calls, end signals included, the items returned are the inner items paired with `c, c + 1, c + 2, ...` |
| `EnumerateAdapter.EnumerateItems` | src/adapters/enumerate.rs:26-31 | up to the first end signal a consumer sees `(c, x0), (c + 1, x1), ...` |
| `EnumerateAdapter.EnumerateIndicesIncrease` | src/adapters/enumerate.rs:27-30 | the indices returned are strictly increasing |
| `MapAdapter.Map.Next` | src/adapters/map.rs:33-35 | one inner call; the end signal is passed on and the function is not called; an item `x` becomes `f(x)`, and `x` is logged as the function's one call |
| `MapAdapter.MapScriptLength` | src/adapters/map.rs:33-35 | a map produces exactly one result per inner call, an item exactly where the inner produced one |
| `MapAdapter.MapItems` | src/adapters/map.rs:34 | a consumer sees `f` applied to each inner item, in order |
| `InspectAdapter.Inspect.Next` | src/adapters/inspect.rs:32-37 | the inner result is returned unmodified; the callback runs once with the item (its state updated, the item logged) and not at all on the end signal; its state stays the fold of the callback over the logged items |
| `InspectAdapter.CountCalls` | tests/lending_iterator.rs:27-30 | a counting callback ends at its start value plus the number of items it saw |
| `WindowsMutSource.WindowsMut.Next` | src/sources/windows_mut.rs:22-30 | when `curr_pos + W <= |slice|`: the window `slice[curr_pos .. curr_pos + W]` and `curr_pos` goes up by 1; otherwise the end signal with `curr_pos` unchanged, so it stays ended; keeps `curr_pos <= |slice| - W + 1` (or 0 when `W > |slice|`); the windows left drop by one per window |
| `WindowsMutSource.WindowsMut.Get` | src/sources/windows_mut.rs:15-19 | reading element `k` of the live window reads `slice[pos + k]`, `pos` being the position of the call that returned it |
| `WindowsMutSource.WindowsMut.Set` | src/sources/windows_mut.rs:24-29 | writing element `k` of the live window changes `slice[pos + k]` and nothing outside `slice[pos .. pos + W]` |
| `FromAdapters.FromIterator.Next` | src/adapters/from.rs:68-72 | returns exactly what the wrapped iterator returns, and advances it once |
| `FromAdapters.FromIter` | src/adapters/from.rs:40-42 | `from_iter` wraps the iterator itself; `into_inner` gives it back |
| `FromAdapters.FromIntoIterator.IntoLendIter` | src/adapters/from.rs:25-31 | `into_lend_iter` is a `FromIterator` over the iterable's `into_iter()`, whose script is the iterable's elements |
| `FromAdapters.FromIntoIter` | src/adapters/from.rs:82-84 | `from_into_iter` wraps the iterable; `into_inner` gives it back |
| `IntoAdapters.IntoIter.Next` | src/adapters/into.rs:27-29 | returns exactly what the wrapped lending iterator returns |
| `IntoAdapters.IntoIntoIter.IntoIter` | src/adapters/into.rs:50-52 | `into_iter` is `IntoIter(inner.into_lend_iter())`, producing the iterable's elements |
| `ToOwnedAdapters.ToOwnedItemIterator.Next` | src/adapters/to_owned.rs:20-22 | the end signal exactly when the lender ends; otherwise an owned copy equal to the lent value; same length and order as the lender |
| `ToOwnedAdapters.ToIntoOwnedItemIterator.IntoIter` | src/adapters/to_owned.rs:36-38 | `into_iter` is `to_owned` over the wrapped lending iterator |
| `Lines.BufferLender.Next` | tests/lending_iterator.rs:71-79 | each item is the same reference, to the iterator's own buffer, which now holds the next entry |
| `Ext.IntoLendIter` | src/traits/ext.rs:35-39 | `into_lend_iter` is `from_iter`: the iterator itself, wrapped |
| `Ext.IntoIntoLendIter` | src/traits/ext.rs:19-23 | `into_into_lend_iter` is `from_into_iter`, undone by `into_inner` |
| `Ext.WindowsMut` | src/traits/ext.rs:52-56 | `windows_mut` covers the whole array at position 0, with `|slice| - W + 1` windows to come when `W <= |slice|` and none otherwise |
| `IntoLending.IntoLendIter` | src/traits/into_lending.rs:62-68 | for a lending iterator, `into_lend_iter` is the identity |
| `IntoLending.IntoIntoIter` | src/traits/into_lending.rs:41-46 | `into_into_iter` only wraps, and `into_inner` undoes it |
| `IntoLending.ToIntoOwnedItem` | src/traits/into_lending.rs:54-59 | `to_into_owned_item` only wraps |
| `IntoLending.ToIntoOwnedIter` | src/traits/into_lending.rs:48-53 | iterating `to_into_owned_item()` is `to_owned` applied to `into_lend_iter()` |
| `Tests.LendThenUnlend` | tests/from_into.rs:19-20 | for every sequence `v`, `into_lend_iter` then `into_iter` then collecting gives back `v` |
| `Tests.IntoLendThenIntoIter` | tests/from_into.rs:13-16 | for every sequence `v`, `into_into_lend_iter`, `into_into_iter`, `into_iter`, then collecting gives back `v` |
| `Tests.WrapUnwrap` | src/adapters/from.rs:33-42 | `from_iter` then `into_iter`, unwrapped twice with `into_inner`, is the very iterator started from |
| `Tests.TakeScenario` | tests/lending_iterator.rs:10-22 | on `[0,1,2,3,4]`, `take(3)` gives `[0,1,2]`; after one call, `take(3)` gives `[1,2,3]` and `take(5)` gives `[1,2,3,4]` |
| `Tests.TakeStops` | src/traits/lending_iterator.rs:174-179 | after one call on `[0..4]`, `take(2)` returns 1, 2, then the end signal, leaving `[3, 4]` in the source |
| `Tests.MapScenario` | tests/lending_iterator.rs:33-38 | `[0,1,2,3,4]` mapped with `x + 1` gives `[1,2,3,4,5]` |
| `Tests.TakeWhileScenario` | tests/lending_iterator.rs:40-48 | `[0,1,2,3,4]` with `x < 3` gives `[0,1,2]` |
| `Tests.TakeWhileSticky` | src/adapters/take_while.rs:35-44 | an inner end signal is passed on without ending the adapter; the first rejected item ends it although a later item would pass |
| `Tests.InspectCounts` | tests/lending_iterator.rs:24-31 | for any sequence, a counting `inspect` run to the end leaves the counter at its length (5 for five elements) |
| `Tests.AllWindows` | src/sources/windows_mut.rs:22-30 | windows of size `W` over `s`: `|s| - W + 1` of them when `W <= |s|` (including `W = 0`), none otherwise, the `i`-th being `s[i .. i + W]` |
| `Tests.WindowsScenario` | tests/windows_mut.rs:9-19 | over `[0,1,2,3,4]` with `W = 3`, writing `w[0] = w[2] - w[1]` through each window in turn leaves `[1,1,1,3,4]` |
| `Tests.LinesScenario` | tests/lending_iterator.rs:58-93 | copies of `"foo\n"`, `"bar\n"` and `"baz"`, then the end signal; after the third call the one lent buffer holds `"baz"` while the first copy is still `"foo\n"` |

## Left out

- Lifetime and higher-rank bound machinery (`LendingIteratorItem`, the `Item` alias,
  `WhereSelfOutlivesAny`): the borrow discipline is checked at compile time, not at run time. The
  one live item is modelled only for `WindowsMut`, by its `live` flag.
- Composing adapters: without traits, every adapter wraps a `Source`; `IntoIter` wraps a
  `FromIterator`, and `ToOwnedItemIterator` wraps a `BufferLender`. `fold` and `for_each`
  (`LendingIterator.Fold`, `LendingIterator.ForEach`) run only over a `Source`, although every
  lending iterator has them. `into_into_iter` (`IntoAdapters.IntoIntoIter`,
  `IntoLending.IntoIntoIter`) wraps only a `FromIntoIterator`, although every
  `IntoLendingIterator` has it, every lending iterator included. Chains such as
  `take(3).into_iter()` or `windows_mut().enumerate()` are not built as objects. Their behaviour
  is stated through the script functions, since each adapter behaves as a `Source` with script
  `Rest()`. The `enumerate` over windows in the window test is a loop counter.
- For the same reason, the reverse round trip (unwrap a lending iterator, then wrap it again)
  cannot be built.
- `for_lend!`: a `while` loop over `next`, written as the loops in `Tests`.
- `ExactSizeLendingIterator`: an abstract trait with no implementation here.
- `impl From<I> for FromIterator<I>`: the same wrap as `from_iter`, not modelled separately.
- The `into_inner` functions are plain field reads without a contract of their own. Their inverse
  laws are stated by `FromAdapters.FromIntoIter`, `Ext.IntoIntoLendIter`,
  `IntoLending.IntoIntoIter` and `Tests.WrapUnwrap`.
- Superseded drafts: `src/adapters/into_owned.rs`, `src/adapters/into_iter.rs`,
  `src/traits/into.rs`, and the extension block in `src/adapters/mod.rs`. Module and re-export
  glue is left out as well.
- Reading lines through `BufRead` is I/O: the line reader is a fixed script of strings. The
  test's reader clears its buffer on every call; `BufferLender` leaves the buffer as it was when
  it ends.
- `to_owned_item` over `windows(2)` (tests/lending_iterator.rs:50-56): that test makes no
  assertion.
- `ToOwned`/`Clone` genericity: a copy is the value itself.
- Stateful closures: predicates and map functions are pure. The `inspect` and `for_each`
  callbacks are state transformers. That `inspect` runs the callback before returning the item
  cannot be observed in a sequential model.
- `usize` overflow of `Enumerate.count` and `Take.remaining`: both are `nat`.
