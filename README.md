# NutriScopeAI front-end logic, modelled in Dafny

NutriScopeAI is a mobile nutrition tracker that sits in front of three hosted
services: an authentication and document store, a food-lookup API and a
chat-completion API. This project models the few pieces of self-contained
logic in its client code and proves what they promise:

- **Food-lookup normalisers** (`Nutritionix`). The instant-search reply keys
  its nutrients by numeric attribute id in `full_nutrients`. The
  natural-language reply has flat `nf_*` fields. Both are turned into one
  `NutritionInfo` record, and a non-2xx reply is an error.
- **Chat requests and fallbacks** (`OpenAI`). This covers decoding a chat
  reply, the image-analysis request, and the daily tip: its prompt, the
  extraction of the JSON span from the reply, and the default tip. It also
  covers the meal-history analysis and its fixed apology.
- **Session state and route guard** (`AuthContext`). The redirect decision of
  `useProtectedRoute` is a function. The provider's `user`/`isLoading` state
  is a class whose handlers update it and record where they navigated.
- **Theme resolution** (`ThemeContext`). This covers dark-or-light from the
  mode and the device scheme, the chosen palette, and the default context.
- **Display helpers** (`NutritionDetailModal`, `MealItem`). This covers the
  attribute lookup, the energy percentages (4/4/9 kcal per gram), the
  header-image choice, the meal-type buttons, the zero-guarded macro bars,
  the placeholder initial, the time label and the expand toggle.

`Wrappers` holds `Option`, `Result` and `Outcome`. `Js` holds the JavaScript
rules the code relies on: truthiness of an optional string, `a || b`,
`Math.round` and ASCII `toUpperCase`.

Collaborators are parameters. These are the chat endpoint (a function from
the request to its HTTP reply, or from messages to a settled `Result`),
`JSON.parse`, `JSON.stringify`, the authentication service's answers,
`toLocaleTimeString`, the base64 image data and the device colour scheme.
HTTP replies come in already read as JSON. Navigation with `router.replace`
is recorded in a field rather than performed.

Only the natural-language normaliser tolerates an absent `photo`. An
instant-search item without `photo` (or without `full_nutrients`) throws a
`TypeError` inside the `map`, so `searchFoods` rejects. The model follows the
code here (`MalformedBody`).

## Model

| member | source | states |
|---|---|---|
| Nutritionix.FindIndex | services/nutritionix.ts:51-59 | the index `find` stops at: a matching entry with no match before it, or none when no entry has the id |
| Nutritionix.NutrientValue | services/nutritionix.ts:51-59 | the value of the first entry with the id, or 0 when there is none |
| Nutritionix.FirstMatchValueUnique | services/nutritionix.ts:51-59 | the first-match-or-zero rule has exactly one answer |
| Nutritionix.NormaliseInstant | services/nutritionix.ts:49-68 | succeeds iff `full_nutrients` and `photo` are present; `name` is `food_name`; each of the nine nutrients follows the first-match rule for its fixed id (208, 203, 205, 204, 291, 269, 307, 306, 601); serving fields, `full_nutrients` and the photo's `thumb`/`highres` are copied unchanged |
| Nutritionix.NormaliseAllInstant | services/nutritionix.ts:49 | one record per element, in the same order, exactly when every element normalises |
| Nutritionix.SearchFoods | services/nutritionix.ts:42-68 | a non-ok reply rejects with "Failed to fetch food data" and gives no records; otherwise one record per element of `common`, in order; it succeeds iff every item has `full_nutrients` and `photo` |
| Nutritionix.OrZero | services/nutritionix.ts:100-108 | the `or 0` default: 0 when absent, else the field |
| Nutritionix.NormaliseNatural | services/nutritionix.ts:98-117 | each nutrient is its `nf_*` field, or 0 when absent; the name and pass-through fields are copied; an absent photo gives undefined `thumb` and `highres` |
| Nutritionix.NutritionFromText | services/nutritionix.ts:91-117 | a non-ok reply rejects with "Failed to fetch nutrition data"; otherwise it always succeeds with one record per element of `foods`, in order |
| Nutritionix.CanonicalAcrossShapes | services/nutritionix.ts:49-68 | given an instant item and a natural-language item whose field values agree, both normalisers build the same record: the two shapes put each field in the same place |
| Nutritionix.MissingIdDefaultsToZero | services/nutritionix.ts:57 | an instant-search item with no entry for an id gets 0 for it, e.g. sodium without id 307 |
| OpenAI.DecodeReply | services/openai.ts:26-32 | resolves iff the reply is ok and has a choice, and then with the first choice's content; a non-ok reply rejects with `error.message`, or with the fallback when that is absent or empty |
| OpenAI.GetChatResponse | services/openai.ts:10-37 | posts to `gpt-4-turbo` (1000 tokens, temperature 0.7) and decodes with the fallback "Failed to get response from OpenAI" |
| OpenAI.ImageMessages | services/openai.ts:44-64 | a fixed system message, then a user message made of an `image_url` part and a text part; an empty prompt is replaced by the default prompt |
| OpenAI.ImageRoundTrip | services/openai.ts:52-56 | the image URL is `data:image/jpeg;base64,` followed by the unaltered data, which can be read back from the request |
| OpenAI.AnalyzeImage | services/openai.ts:39-90 | posts to `gpt-4-vision-preview` (1000 tokens) and decodes with the fallback "Failed to analyze image" |
| OpenAI.JoinContains | services/openai.ts:123 | every element of a list occurs in its `join(', ')`, at the returned offset |
| OpenAI.RestrictionsOf | services/openai.ts:113 | the `dietaryRestrictions` fallback to an empty array: the list when the preferences and the list are present, else the empty list |
| OpenAI.GoalsOf | services/openai.ts:114 | the `dietGoals` fallback to an empty array: the list when the preferences and the list are present, else the empty list |
| OpenAI.TipUserPromptMentions | services/openai.ts:123 | the user prompt (`TipUserPrompt`) names every restriction and every goal it is given |
| OpenAI.TipPromptMentionsPreferences | services/openai.ts:112-131 | the tip request's user text names every dietary restriction and every diet goal the preferences carry |
| OpenAI.TipMessages | services/openai.ts:116-131 | two messages: the fixed system prompt, then the user prompt `TipUserPrompt` of `RestrictionsOf` and `GoalsOf`; `TipPromptMentionsPreferences` shows that text names every restriction and goal |
| OpenAI.MissingPreferencesAreEmptyLists | services/openai.ts:113-114 | absent preferences, absent lists and empty lists give the same request, whose user prompt has both lists empty |
| OpenAI.FirstIndexOf | services/openai.ts:136 | the position of the first occurrence of a character, or none |
| OpenAI.LastIndexOf | services/openai.ts:136 | the position of the last occurrence of a character, or none |
| OpenAI.ExtractJsonSpan | services/openai.ts:136-139 | matches iff some `{` precedes some `}`; then the result is the leftmost, greedy match of `/\{[\s\S]*\}/` |
| OpenAI.RegexMatchUnique | services/openai.ts:136 | the regex has at most one leftmost-greedy match |
| OpenAI.ExtractJsonSpanIsRegexMatch | services/openai.ts:136-139 | the extracted text is exactly the regex match, from the first `{` through the last `}` |
| OpenAI.DailyTip | services/openai.ts:112-153 | the "Stay Hydrated" default tip when the collaborator fails, when no `{…}` span exists, or when parsing fails; else the parsed span; nothing is thrown |
| OpenAI.DailyTipSource | services/openai.ts:133-152 | the tip is the default or a value that `JSON.parse` produced |
| OpenAI.HistoryMessages | services/openai.ts:157-166 | exactly two messages: the fixed system message, then a user message that is the fixed head followed by the serialised history |
| OpenAI.HistoryMessagesInjective | services/openai.ts:164 | different serialised histories give different requests |
| OpenAI.AnalyzeMealHistory | services/openai.ts:155-172 | the collaborator's text verbatim on success; the fixed "Unable to analyze meal history…" string on any failure |
| AuthContext.ProtectedRouteRedirect | contexts/AuthContext.tsx:30-38 | no user outside `(auth)` goes to `/(auth)/login`; a user inside `(auth)` goes to `/(tabs)`; no redirect iff "signed in" is the same as "outside the auth group" |
| AuthContext.RedirectSettles | contexts/AuthContext.tsx:30-38 | after a redirect the guard is satisfied on the page it landed on |
| AuthContext.AuthProvider.constructor | contexts/AuthContext.tsx:43-44 | starts with no user and loading, the same as the context's default value at contexts/AuthContext.tsx:14-20 |
| AuthContext.AuthProvider.OnAuthStateChanged | contexts/AuthContext.tsx:63-66 | the user becomes the reported value and loading ends |
| AuthContext.AuthProvider.LoadUser | contexts/AuthContext.tsx:51-60 | the user becomes the current account and loading ends |
| AuthContext.AuthProvider.SignIn | contexts/AuthContext.tsx:74-86 | on success the user is the returned account and the app navigates to `/(tabs)`; on failure the error is rethrown and the user unchanged; loading ends either way |
| AuthContext.AuthProvider.SignUp | contexts/AuthContext.tsx:88-100 | as sign-in, with the account sign-up returns |
| AuthContext.AuthProvider.SignOut | contexts/AuthContext.tsx:102-114 | on success the user is cleared and the app navigates to `/(auth)/login`; on failure the error is rethrown and the user unchanged; loading ends either way |
| ThemeContext.IsDark | contexts/ThemeContext.tsx:73 | `dark` is always dark; `light` is never dark; `system` is dark iff the device scheme is dark |
| ThemeContext.ActiveTheme | contexts/ThemeContext.tsx:76 | the dark palette exactly when dark, the light palette otherwise |
| ThemeContext.ProviderValue | contexts/ThemeContext.tsx:68-83 | the provider supplies the mode, its `isDark` and the matching palette |
| ThemeContext.DefaultMatchesFreshProvider | contexts/ThemeContext.tsx:59-70 | a provider in its initial `system` mode equals the default context (light palette, `system`, not dark) iff the device is not dark |
| ThemeContext.ProviderValueCoherent | contexts/ThemeContext.tsx:73-79 | the supplied palette is dark iff the supplied flag says dark |
| NutritionDetailModal.GetNutrientValue | components/NutritionDetailModal.tsx:25-29 | 0 without `full_nutrients`; else the value of the first entry with the id, or 0 |
| NutritionDetailModal.EnergyPercentage | components/NutritionDetailModal.tsx:101-117 | with non-zero calories, the nearest integer to grams × factor × 100 / calories; 0 when both are 0; an infinity of the macro's sign otherwise |
| NutritionDetailModal.EnergyPercentageInRange | components/NutritionDetailModal.tsx:101-117 | with positive calories and macro energy within them, the percentage lies in 0..100 |
| NutritionDetailModal.ZeroFoodShowsZero | components/NutritionDetailModal.tsx:101-117 | a food with no calories and none of the macro shows 0% through the zero default |
| NutritionDetailModal.HeaderImage | components/NutritionDetailModal.tsx:68-80 | a photo iff `photo.thumb` is truthy, using `highres` when truthy and `thumb` otherwise; else the upper-cased first character of the name |
| NutritionDetailModal.Render | components/NutritionDetailModal.tsx:22-242 | nothing iff there is no item; otherwise the header image, the 4/4/9 kcal-per-gram percentages, each percentage being `MacroPercentage`'s, and the 606/605/324/301/303 rows, each the `GetNutrientValue` of its id (all 0 without `full_nutrients`); the four meal-type buttons Breakfast, Lunch, Dinner, Snack only when a handler is passed |
| NutritionDetailModal.PressMealType | components/NutritionDetailModal.tsx:232-235 | a press calls `onAddToMealLog(item, type)`, then closes the modal |
| MealItem.MacroShare | components/MealItem.tsx:118 | 0 when the total is not positive, never a division by zero; else the share is `value / total * 100` |
| MealItem.MacroShareInRange | components/MealItem.tsx:118 | a part of a positive total gives a share in 0..100 |
| MealItem.Indicators | components/MealItem.tsx:72-95 | three indicators (protein, carbs, fat) with their rounded amounts, all divided by the same total, `MacroTotal`: the rounded sum of the three macros |
| MealItem.IndicatorsInRange | components/MealItem.tsx:72-95 | with non-negative macros, no bar exceeds 100% |
| MealItem.SharesMayExceedWhole | components/MealItem.tsx:72-95 | the bars are rounded separately, so they can add up to more than 100% (protein 0.5 g and carbs 0.5 g give 200%) |
| MealItem.PlaceholderInitial | components/MealItem.tsx:43 | the first character of `mealType`, or "M" when it is absent or empty; always one character |
| MealItem.MealThumbnail | components/MealItem.tsx:38-46 | the photo iff `photoUrl` is truthy, else the placeholder initial |
| MealItem.FormattedTime | components/MealItem.tsx:20 | "" without a timestamp; else the locale time of the timestamp in milliseconds |
| MealItem.MealCard.constructor | components/MealItem.tsx:14 | `expanded` starts false |
| MealItem.MealCard.ToggleExpanded | components/MealItem.tsx:16-18 | each toggle negates `expanded` |
| MealItem.ToggleTwice | components/MealItem.tsx:16-18 | toggling twice restores `expanded` |

## Left out

- HTTP: `fetch`, endpoints, headers, API keys and credentials. Each function receives the reply it would read.
- A body that is not valid JSON, so that `response.json()` throws, is not modelled.
- `imageToBase64` (services/openai.ts:92-103) is file I/O. `AnalyzeImage` takes the base64 data, so a failed read is not modelled.
- `JSON.parse` and `JSON.stringify` are parameters. The parsed tip is taken as a `NutritionTip`. The code does not check what `JSON.parse` returned, and the model does not capture values of other shapes.
- `console.error` logging.
- Numbers are exact reals. There is no floating point and no NaN. So a meal whose macro fields are undefined, or a `full_nutrients` entry without a numeric `value`, is not modelled.
- `toFixed`, the `Math.round` of the displayed amounts and `toLocaleTimeString` formatting are left out. The time formatter is a parameter.
- `toUpperCase` is modelled for ASCII letters only. Other case mappings are not.
- `item.name.substring(0, 1)` and `meal.mealType?.charAt(0)` take one UTF-16 code unit, while the model's strings are sequences of code points. So a name or meal type starting with a character outside the Basic Multilingual Plane, such as an emoji, gives half a surrogate pair in the source but the whole character in `HeaderImage` and `PlaceholderInitial`.
- AuthContext.AuthProvider.SignIn: the `isLoading = true` visible while the call is pending is not modelled, because each handler is one atomic step. The same holds for SignUp and SignOut. The order of the auth listener against `loadUser` and against a pending sign-in is also not modelled.
- Unsubscribing the auth listener on unmount, and the `useSegments`/`useRouter` hooks. The route's segments are an input, and the router just records targets.
- `setThemeMode`. It only replaces the mode, which is a parameter instead.
- React rendering, styles, animations, `Modal` visibility and `onClose` wiring. Of the modal's output only the values in `DetailView` are modelled.
- services/firebase.ts is not part of this model. Its functions are one-call wrappers over the store SDK, stood in for by the reply parameters of the auth handlers.
- components/NutritionCard.tsx and the screens under app/ are not part of this model.
- Per-day meal bucketing and goal-relative daily totals are not part of this model: that code is not among the modelled files.
