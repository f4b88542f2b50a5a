# Show list item display strings

A model of `ShowUiModel`, the read-only interface behind each movie or TV show
in the app's lists. A show's fields (id, title, overview, genres, poster path,
average rating, release date) are an immutable value. The model covers the two
derived display strings that carry logic:

- `genreString` joins the genre names with `", "`, keeping at most three, with
  an empty truncation marker. It follows Kotlin's
  `joinToString(separator, limit, truncated)`. That function writes the
  separator before an element and only then checks the limit. So a show with
  more than three genres gets the first three names, then one more `", "`, then
  the empty marker: `"Action, Drama, Comedy, "`. With exactly three genres
  there is no trailing separator. This is not a clean cut: the separator
  written before the fourth name stays.
- `releaseDateString` is `""` when there is no release date. Otherwise it is the
  date rendered by the `formatDate` extension with the show date pattern.

Modules:

- `Wrappers`: `Option`, standing for Kotlin's nullable types, with the safe
  call `?.` (`SafeCall`) and the elvis operator `?:` (`Elvis`).
- `KotlinJoin`: the `joinTo` loop behind `joinToString`, written as a recursive
  function, plus a reference definition of an unlimited join (`Join`). The
  contracts of `JoinLoop` and `JoinToString` relate the two.
- `ShowUiModel`: the `Genre`, `Date` and `Show` datatypes, the getters
  `GenreString` and `ReleaseDateString`, and the properties of both getters.

The date formatter and the date pattern are parameters of `ReleaseDateString`.
The formatter is `Date.formatDate`, which wraps the JDK's `SimpleDateFormat`
with the app's default locale. The pattern is `Constant.Date.DATE_FORMAT_SHOW`.
`Constant` is not part of this model. `java.util.Date` is modelled as its
milliseconds since the epoch.

A getter only reads the fields and changes nothing. In the model a show is
one snapshot of its `val` properties, held in a datatype, and each getter is a
function of that snapshot and of the formatter it is given.

## Model

| member | source | states |
|---|---|---|
| `KotlinJoin.JoinLoop` | app/src/main/kotlin/com/adesso/movee/uimodel/ShowUiModel.kt:30 | The `joinTo` loop that `joinToString` runs. After the first element, it appends separator then element for each element within the limit. At the first element past the limit it appends one separator and then the truncation marker. |
| `KotlinJoin.JoinToString` | app/src/main/kotlin/com/adesso/movee/uimodel/ShowUiModel.kt:30 | `joinToString` with no limit, or with elements that fit within it, is the plain join with no marker. Otherwise it is the join of the first `limit` elements, then a separator if `limit > 0`, then the marker. |
| `KotlinJoin.JoinLength` | app/src/main/kotlin/com/adesso/movee/uimodel/ShowUiModel.kt:30 | A join of n >= 1 elements is as long as the elements together plus n - 1 separators. |
| `ShowUiModel.GenreNames` | app/src/main/kotlin/com/adesso/movee/uimodel/ShowUiModel.kt:30 | The `{ it.name }` transform: one name per genre, the i-th name being the i-th genre's name. |
| `ShowUiModel.GenreString` | app/src/main/kotlin/com/adesso/movee/uimodel/ShowUiModel.kt:29-30 | Up to three genres give the plain `", "` join of their names. More than three give the join of the first three names followed by `", "`. |
| `ShowUiModel.GenreStringShape` | app/src/main/kotlin/com/adesso/movee/uimodel/ShowUiModel.kt:29-30 | No genres give `""`. One to three genres give their names in list order joined by `", "`, with nothing before or after. More than three give the first three names joined by `", "`, then a trailing `", "`. |
| `ShowUiModel.GenreStringTrailingSeparator` | app/src/main/kotlin/com/adesso/movee/uimodel/ShowUiModel.kt:29-30 | With more than three genres the string ends in `", "`. |
| `ShowUiModel.GenreStringFourGenres` | app/src/main/kotlin/com/adesso/movee/uimodel/ShowUiModel.kt:29-30 | Genres Action, Drama, Comedy, Horror with any ids give `"Action, Drama, Comedy, "`. |
| `ShowUiModel.GenreStringDependsOnFirstThree` | app/src/main/kotlin/com/adesso/movee/uimodel/ShowUiModel.kt:29-30 | Two shows whose first three genre names agree, and which agree on having more than three genres, have the same genre string. Genre ids, later genres and all other fields do not matter. |
| `ShowUiModel.GenreStringLength` | app/src/main/kotlin/com/adesso/movee/uimodel/ShowUiModel.kt:29-30 | Take n = min(genre count, 3) with n >= 1. The length is the sum of the first n name lengths, plus 2(n - 1), plus 2 more when there are over three genres. With no genres the length is 0. |
| `ShowUiModel.ReleaseDateString` | app/src/main/kotlin/com/adesso/movee/uimodel/ShowUiModel.kt:26-27 | Its body is `Elvis(SafeCall(..))`, Kotlin's `?.` and `?:` (`releaseDate?.formatDate(pattern) ?: ""`), so this contract is where the meaning of both operators is stated. A missing release date gives `""`. A present date gives exactly the formatter applied to that date with the show date pattern. |
| `ShowUiModel.ReleaseDateStringOnlyFromDate` | app/src/main/kotlin/com/adesso/movee/uimodel/ShowUiModel.kt:26-27 | The release date string depends on no field except `releaseDate`. It is empty exactly when the date is missing or the formatter renders it as empty. |

## Left out

- `averageString` (`Double.toString()`): floating-point rendering. The `average` field is kept as a `real` and nothing reads it.
- `Date.formatDate` pattern semantics (`SimpleDateFormat` with the default locale): JDK library code. It is a function parameter of `ReleaseDateString`, so no pattern or locale behaviour is modelled, and neither is the `IllegalArgumentException` that `SimpleDateFormat` throws on a malformed pattern. The value of `DATE_FORMAT_SHOW` is not shown, so it is a parameter too.
- `ListAdapterItem` and `Serializable` supertypes, and poster image loading: framework concerns. `posterPath` is kept only as a field.
- The laziness of the `{ it.name }` transform: `joinTo` calls it only on the elements it appends (at most three names here; the fourth genre is visited but not transformed), while `GenreNames` maps every genre before the join. The transform only reads a property, so the result is the same.
- The 64-bit width of `id` (`Long`) and of `java.util.Date`'s milliseconds (`long`): both are unbounded integers, since no getter computes with them.
- Implementations' own getters: the interface's `val` only promises a getter, and an implementing class may back it with a `var` or compute it. The model reads each property once, as a field of a snapshot.
- The mutability of `java.util.Date` (`setTime`): the date is a value in the model, so a date changed between two calls is not captured.
- The time zone and locale read on each call: `formatDate` builds a new `SimpleDateFormat` every time, reading the JVM default time zone and the app's default locale at that moment. The model's formatter is one fixed function, so two calls of `releaseDateString` that differ because those settings changed are not captured.
- The login screen and login fragment: Compose UI and Android lifecycle wiring, with no logic apart from the framework.
