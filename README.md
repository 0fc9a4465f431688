# In-memory stores of four FastAPI demo services, in Dafny

The repository holds four small REST services. Each keeps its whole
"database" in one module-level collection and answers HTTP requests by
scanning, appending to, overwriting and removing from it. This project
models those stores and the handlers that touch them, and proves what each
handler does to the store and what it answers:

- **Profiles** (`profiles.dfy`, from `fastapi/profile_api.py`): the list
  `profiles_db` as `ProfileStore.profiles`. Creation validates the email
  (`@` required) and rejects a username already present ignoring case (400).
  Lookup is by id or by username ignoring case (404 when absent). A partial
  update overlays only the fields the client sent and stamps `updated_at`.
  Delete pops the first profile with the id. The class invariant is that ids
  are distinct, usernames are distinct ignoring case, and every email that is
  present contains `@`.
- **Messages** (`messages.dfy`, from `fastapi/message_api.py`): the list
  `messages_db` as `MessageStore.messages`. Create appends an unread message.
  Get, partial update and delete work by id and answer 404 when the id is
  absent. Two filters keep store order and compare sender or recipient
  ignoring case. The class invariant is that ids are distinct.
- **City names** (`city_weather.dfy`, from `fastapi/city_weather.py`): the
  set `cities` as `CityRegistry.cities`. Names are normalised with
  `strip().lower()` before they are added (400 if present), looked up (404 if
  absent) or removed (404 if absent). The class invariant is that every
  stored name is already normalised.
- **City list** (`city_list.dfy`, from `fastapi/city.py`): the list `db` as
  `CityStore.db`, addressed by `city_id - 1` with Python's signed indexing.
  Id 0 reads the last city. An index outside `[-len, len)` raises
  IndexError.

Shared pieces: `common.dfy` (Option, the sent/not-sent `Field` of a partial
update, the error outcomes, Result), `seqs.dfy` (first-match search, `pop`,
Python indexing, subsequences) and `text.dfy` (ASCII `lower()`, `strip()`
with Python's whitespace set, and the city-name normalisation).

Generated ids (`uuid.uuid4()`) and clock readings
(`datetime.now().isoformat()`) are method parameters. A create method
requires its id to be absent from the store, which is what makes the
distinct-ids invariant hold.

A partial-update body is a record of `Field<Option<T>>` values:
`exclude_unset=True` keeps a field the client sent even when it is `null`,
and `copy(update=...)` does not validate. So an update that sends
`"email": null` (the update validator lets None through) stores a profile
whose email is None. The same holds for `full_name`, a message's `content`
and `is_read`. The stored records therefore carry these fields as options.
`Profiles.NullEmailIsStored` shows this case. `Profiles.UpdateKeepsEmailsValid`
shows that every other accepted update keeps all stored emails valid. This
means the `ProfileBase.validate_email` check (fastapi/profile_api.py:16-21),
which `Profile` inherits (fastapi/profile_api.py:37), does not hold of every
stored profile: `copy(update=...)` bypasses it. What the store does keep, and
`Profiles.ProfileStore.Valid` states, is that every email that is present
contains `@`.

Validation errors (422) are raised while the request body is parsed, before
the handler runs. The model therefore checks them before the 404 and 400
checks.

## Model

| member | source | states |
|---|---|---|
| Profiles.ValidateCreate | fastapi/profile_api.py:16-21 | a create body is rejected with a validation error exactly when its email has no `@`; otherwise it passes unchanged |
| Profiles.ValidateUpdate | fastapi/profile_api.py:31-35 | an update body is rejected exactly when its email was sent, is not null and has no `@`; unsent or null emails pass |
| Profiles.ProfileStore.GetProfile | fastapi/profile_api.py:55-61 | answers the first profile whose id equals the argument, and 404 exactly when no profile has it |
| Profiles.ProfileStore.GetProfileByUsername | fastapi/profile_api.py:63-69 | answers the first profile whose lowercased username equals the lowercased argument, and 404 exactly when there is none |
| Profiles.UsernameLookupIsUnique | fastapi/profile_api.py:66-69 | in a store with case-insensitively distinct usernames, any profile matching the name ignoring case is the one the lookup returns |
| Profiles.NewProfile | fastapi/profile_api.py:80-93 | the created profile copies the body, has `created_at == updated_at == now`, and links `self` to `/profiles/<username>` and `messages` to `/messages/sender/<username>` |
| Profiles.ProfileStore.CreateProfile | fastapi/profile_api.py:71-95 | 422 and no change for an email without `@`; 400 and no change when the username is taken ignoring case; otherwise exactly one new profile is appended and earlier entries are untouched; distinct ids and usernames, and `@` in every present email, are preserved |
| Profiles.CreatedProfileIsFound | fastapi/profile_api.py:75-94 | after a create, lookup by the new id and by the username in any case both find the appended profile |
| Profiles.ApplyUpdate | fastapi/profile_api.py:105-110 | unsent fields keep their values, sent fields take the sent value (null included), `updated_at` becomes `now`, and id, username, `created_at` and links never change |
| Profiles.ProfileStore.UpdateProfile | fastapi/profile_api.py:97-113 | 422 and no change for an invalid sent email; 404 and no change for an unknown id; otherwise only the first entry with the id is replaced by its overlay and the length is kept |
| Profiles.UpdateKeepsPresentEmailsValid | fastapi/profile_api.py:31-35 | every update the validator accepts, an explicit null email included, keeps every present stored email containing `@`; the store's invariant adds this to distinct ids and usernames |
| Profiles.UpdateKeepsEmailsValid | fastapi/profile_api.py:31-35 | an accepted update that does not send a null email keeps every stored email present and containing `@` |
| Profiles.NullEmailIsStored | fastapi/profile_api.py:105-110 | an update sending `"email": null` passes validation and stores a profile whose email is None |
| Profiles.ProfileStore.DeleteProfile | fastapi/profile_api.py:115-122 | 404 and no change for an unknown id; otherwise exactly the first entry with the id is removed, the rest keep their order, and its username is answered |
| Profiles.RemoveAtKeepsPresentEmailsValid | fastapi/profile_api.py:118-122 | popping a profile keeps every remaining present email containing `@`, so a delete preserves the store's invariant |
| Profiles.DeletedProfileIsGone | fastapi/profile_api.py:118-122 | in a store with distinct ids, after the delete no entry carries the id, so a repeated get or delete answers 404 |
| Messages.NewMessage | fastapi/message_api.py:50-57 | the created message has the body's sender, recipient and content, the given id and timestamp, and `is_read = false` |
| Messages.MessageStore.CreateMessage | fastapi/message_api.py:47-59 | exactly one new message is appended and earlier entries are unchanged; ids stay pairwise distinct when the new id is fresh |
| Messages.CreatedMessageIsFound | fastapi/message_api.py:50-58 | after a create with a fresh id, a lookup by that id finds the appended message |
| Messages.MessageStore.GetMessage | fastapi/message_api.py:39-45 | answers the first message whose id equals the argument, and 404 exactly when there is none |
| Messages.ApplyUpdate | fastapi/message_api.py:69-70 | only the sent fields among content and `is_read` change; an unsent `is_read` keeps its prior value; id, sender, recipient and timestamp are preserved |
| Messages.MessageStore.UpdateMessage | fastapi/message_api.py:61-73 | 404 and no change for an unknown id; otherwise only the first entry with the id is replaced by its overlay, the others and the length unchanged |
| Messages.MessageStore.DeleteMessage | fastapi/message_api.py:75-82 | 404 and no change for an unknown id; otherwise exactly the first entry with the id is removed and the rest keep their order |
| Messages.DeletedMessageIsGone | fastapi/message_api.py:78-82 | in a store with distinct ids, after the delete no entry carries the id |
| Messages.MessagesWith | fastapi/message_api.py:89 | the comprehension returns a subsequence of the store, holding each message exactly as many times as the store does when its party matches the name ignoring case, and never otherwise |
| Messages.MessagesWithMembers | fastapi/message_api.py:89 | a message is in the filter's answer exactly when it is in the store and its party equals the name ignoring case |
| Messages.MessageStore.MessagesBySender | fastapi/message_api.py:86-89 | answers, in store order, exactly the stored messages whose sender equals the argument ignoring case |
| Messages.MessageStore.MessagesByRecipient | fastapi/message_api.py:91-94 | answers, in store order, exactly the stored messages whose recipient equals the argument ignoring case |
| Text.Lower | fastapi/message_api.py:89 | `lower()` keeps the length and lowers each ASCII letter in place |
| Text.Strip | fastapi/city_weather.py:16 | `strip()` answers a middle slice with no whitespace at either end, and everything cut off is whitespace |
| Text.NormalizedIffFixed | fastapi/city_weather.py:16 | a name is left unchanged by `strip().lower()` exactly when it has no surrounding whitespace and no upper-case letter |
| Text.NormalizeIdempotent | fastapi/city_weather.py:16 | normalising a normalised name changes nothing |
| CityWeather.CityRegistry.CreateCity | fastapi/city_weather.py:14-20 | 400 and no change when the normalised name is present; otherwise the new set is the old set plus the normalised name, which is answered; stored names stay normalised |
| CityWeather.CityRegistry.GetCity | fastapi/city_weather.py:23-28 | 404 exactly when the normalised name is absent; otherwise answers that stored name |
| CityWeather.CityRegistry.DeleteCity | fastapi/city_weather.py:31-37 | 404 and no change when the normalised name is absent; otherwise exactly that name is removed |
| CityWeather.CityRegistry.ListCities | fastapi/city_weather.py:40-44 | the "No cities available" answer exactly when the set is empty, else one lookup per stored name |
| CityWeather.StoredNamesAreNormalized | fastapi/city_weather.py:16-19 | every stored name equals its own `strip().lower()` |
| CityWeather.PostTwice | fastapi/city_weather.py:14-20 | posting the same city twice, in any case and with any surrounding whitespace, succeeds first and answers 400 second |
| CityWeather.CreateThenDelete | fastapi/city_weather.py:14-37 | adding a new city and deleting it under an equivalent spelling restores the set, and a later get answers 404 |
| Seqs.IndexOf | fastapi/profile_api.py:58-61 | the enumerate-and-return scan finds the first position holding the key, and finds none exactly when the key is absent |
| Seqs.RemoveAt | fastapi/city.py:39 | `pop(i)` shortens the list by one, keeps the elements before `i`, shifts the later ones down one place, and removes exactly one copy of the popped element |
| Seqs.PyIndex | fastapi/city.py:30 | Python's `db[k]` is defined exactly for `-len <= k < len` and then names position `k`, or `k + len` for negative `k` |
| CityList.CityStore.GetCity | fastapi/city.py:28-30 | IndexError exactly when `city_id - 1` is outside `[-len, len)`; otherwise `db[city_id - 1]`, where ids 0 and below count from the end |
| CityList.CityStore.AddCity | fastapi/city.py:32-35 | appends the city with no uniqueness check and answers the new last element |
| CityList.CityStore.DeleteCity | fastapi/city.py:37-40 | IndexError and no change for an out-of-range id; otherwise the city at Python index `city_id - 1` is popped and later cities move down one place |
| CityList.PostGetDeleteGet | fastapi/city.py:28-40 | on an empty list, post then get id 1 answers the posted city; delete id 1 then get id 1 raises IndexError |
| CityList.PostDuplicate | fastapi/city.py:28-35 | the same city posted twice is stored twice, and id 0 reads the last city posted |

## Left out

- HTTP routing, the welcome routes `index()`, and the request parsing and type coercion that FastAPI and pydantic do before a handler runs. Only the two email validators are modelled from that layer.
- `get_all_profiles` and `get_all_messages`: each answers the whole list, which is the store field itself.
- Outbound HTTP calls: `fetch_city_data` and the upstream lookups of `get_city` and `get_cities` in `fastapi/city_weather.py`, and the time lookup in `get_cities` of `fastapi/city.py`. For `city_weather.py` the model answers the names that would be looked up, and the empty-set branch of `get_cities`. `get_cities` of `fastapi/city.py` is not modelled, because it is only a loop of network calls.
- Response-model validation: FastAPI checks each answer against `Profile` or `Message`. A record holding None after an explicit-null update would fail that check with a 500, but only after the store was changed. The model stores the None and does not model the 500.
- `uuid.uuid4()` and `datetime.now()`: these are parameters, and the uniqueness of generated ids is assumed through a freshness `requires`.
- Full Unicode `str.lower()` and `str.strip()`: the model lowers only `A`-`Z` and strips only ASCII whitespace.
- Concurrency on the module-level stores: the services make no provision for it, and the model runs one request at a time.
- Messages.MessageStore.MessagesBySender and Messages.MessageStore.MessagesByRecipient state membership and order only; the exact multiplicities are stated on Messages.MessagesWith, which both return.
