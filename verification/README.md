# Brain repository: result shaping

A Dafny model of the Python-side logic of the `Brains` repository class of the
quivr backend (`backend/modules/brain/repository/brains.py`). The class is a
data-access layer over a remote backend. Every operation modelled here sends
one query and then shapes the returned rows (`response.data`) into domain
records. The model covers that shaping. Each modelled operation takes the
response row list as its input.
Nothing here says which rows the backend returns.

Two pieces are modelled:

- **The public listing** (`get_public_brains`). Each row of the joined,
  aggregated query is reshaped:
  - the subscriber count is unwrapped from its one-element `[{count}]` list;
  - a falsy `brain_definition` (null or an empty list) is deleted from the row;
  - otherwise the definition is replaced by its first element, with `secrets`
    set to the empty list.
  
  The first row that cannot be reshaped aborts the whole listing.
- **"First row, or absent"** (`get_brain_details`, `get_brain_by_id`,
  `update_brain_by_id`, `create_brain`). A row list becomes either nothing or
  the entity built from row 0. `create_brain` indexes row 0 without a check,
  so there an empty list raises `IndexError`.

Rows are Python dicts of decoded JSON (`PyValues.Value`, `PyValues.Row`). The
Python subscripting the source performs (`x[0]`, `x["count"]`,
`x["secrets"] = []`, `item[key]`) is modelled with the exception each misuse
raises (`KeyError`, `IndexError`, `TypeError`), so a malformed row fails the
way the code does. `BrainEntity` and `PublicBrain` construction is a total
wrapper over the row, because their schemas are external.

Files:

- `wrappers.dfy`: `Option` and `Result`.
- `pyvalues.dfy`: decoded JSON values, Python truthiness, subscripting and its exceptions.
- `brains.dfy`: the repository's row shaping and its properties.

Behaviour of the code worth noting:

- With more than one row, lookups return the entity for row 0.
- A malformed listing row raises a plain `KeyError`, `IndexError` or
  `TypeError` before that row's public brain is built, and the whole listing
  fails with it.
- The subscriber count is passed through as whatever value the aggregate
  holds; the code does not check its type or sign.

## Model

| member | source | states |
|---|---|---|
| Brains.ReshapeRow | backend/modules/brain/repository/brains.py:38-46 | A row reshapes without raising exactly when it has a non-empty subscriber wrapper whose first element is a dict with `count`, and a definition that is falsy or a non-empty list starting with a dict. A missing aggregate or definition is a `KeyError` and an empty wrapper is an `IndexError`. On success, `number_of_subscribers` is the first wrapper element's `count`. The definition key is present exactly when the input definition is truthy, and is then the first definition with `secrets` emptied and every other field unchanged. Every other column keeps its presence and value. |
| Brains.PublicBrains | backend/modules/brain/repository/brains.py:36-47 | The listing succeeds exactly when every row reshapes. It then has one public brain per row, in row order, and element i is built from row i's reshaped fields. On failure, the error is that of the first row that cannot be reshaped. |
| Brains.PublicBrainsAppend | backend/modules/brain/repository/brains.py:38-47 | Rows are reshaped independently. Listing `a + b` is the listing of `a` followed by the listing of `b`, and an error in `a` takes precedence over one in `b`. |
| Brains.ListingHidesSecrets | backend/modules/brain/repository/brains.py:42-44 | Every definition in a successful listing is a dict whose `secrets` is the empty list, whatever the backend attached. |
| Brains.ListingOmitsMissingDefinitions | backend/modules/brain/repository/brains.py:40-41 | In a successful listing, a public brain has no `brain_definition` key (rather than a null one) exactly when its row's definition is falsy. |
| Brains.ListingKeepsScalars | backend/modules/brain/repository/brains.py:31-46 | The projected columns `id`, `name`, `description`, `last_update` and `brain_type` reach the public brain unchanged. |
| Brains.ListingUnwrapsCount | backend/modules/brain/repository/brains.py:39 | The listed subscriber count is the `count` of the first element of the row's wrapper. A wrapper holding a zero count lists zero subscribers. |
| Brains.InsertPayload | backend/modules/brain/repository/brains.py:20-21 | The insert payload holds every field of the brain except `brain_definition` and `brain_secrets_values`, with unchanged values. |
| Brains.CreateBrain | backend/modules/brain/repository/brains.py:18-25 | The entity is built from the first inserted row. An empty response raises `IndexError`, and only an empty response raises. |
| Brains.GetBrainDetails | backend/modules/brain/repository/brains.py:54-63 | Absent exactly when the response is `[]`. Otherwise the entity built from row 0. |
| Brains.FirstRowOrAbsent | backend/modules/brain/repository/brains.py:82-99 | Shared by `update_brain_by_id` and `get_brain_by_id`: absent exactly when the returned rows have length zero. Otherwise the entity built from row 0. |
| Brains.ResultSelectionAgrees | backend/modules/brain/repository/brains.py:18-99 | The `== []` guard of `get_brain_details` and the length guard of the other lookups shape every response identically. `create_brain` yields the same entity on exactly the responses where they find one, and raises `IndexError` exactly where they report absence. |

## Left out

- The backend queries (`table`, `from_`, `select`, `filter`, `match`, `insert`, `update`, `delete`, `rpc`, `execute`): they run remotely. This includes the `status = public` filter, the joins, the count aggregate, the `now()` timestamp and row matching. The model takes the returned rows as input.
- `update_brain_last_update_time`, `delete_brain` and `delete_secret`: they only issue a query or RPC and return nothing or the raw backend result. `build_secret_unique_name` is not part of this model.
- The partial-update payload of `update_brain_by_id` (`dict(exclude_unset=True)`): its meaning depends on pydantic and the backend.
- Pydantic validation of `BrainEntity` and `PublicBrain`: their schemas are not part of this model, so construction is a total wrapper over the row. A validation error is not modelled.
- In-place mutation: the source mutates the dicts inside `response.data` and the definition dict it takes from the joined list. That list is discarded afterwards, so the aliasing has no observable effect and the model is functional.
- Floating-point JSON numbers and negative subscripts: the code only uses index `0` and string keys.
- The client singleton, logging, concurrency and network failures.
