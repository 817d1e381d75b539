# Driver configuration of a Selenium test harness, in Dafny

The harness configures a Selenium WebDriver for one of four browsers and
offers small helpers to tests. Almost all of its work is done by the
`selenium-webdriver` and `node-fetch` libraries. This project models the
logic the harness owns, which is three pieces:

- **The driver builder** (`utils/builder.ts`), in module `Builder`.
  `GetDriver` dispatches on a browser name. The four builders turn the
  flags for size class, UI mode, binaries mode and location into browser
  options, a server and a window rectangle set after the build. The
  library is not modelled. A `DriverPlan` records what the library is
  asked for. Whether the library throws synchronously is the input `libraryFails`.
  `GetDriver` returns `Unsupported` (JavaScript `undefined`), `Failed`
  (`null`) or `Built(plan)`. Chrome and Edge build their options step by
  step, so they are methods that update a local options value.
  `SetFirefoxSettings` is one chained expression per branch of a 2×2×3
  decision tree, so it is a function. The predicate `Conforms` states
  declaratively what a plan must be for each browser. Every builder and
  `GetDriver` is proved to produce a conforming plan. The lemmas prove what
  `Conforms` implies: exactly one sizing mechanism, the right preset,
  Safari's indifference to the other flags, and uniqueness of the plan.
- **The ordinal formatter** `nOrderStringify` (`utils/easifier.ts`), in
  module `Easifier`. It rests on module `JsNumbers`, which models
  JavaScript's truncating `%` and the decimal text of `${n}` for integers.
  The suffix rule, periodicity in steps of 100, the documented examples
  and a round trip back to `n` are proved.
- **The configuration constants** (`utils/defaultEnvs.ts`), in module
  `DefaultEnvs`. It holds the viewport presets, the "nonzero number or
  default" rule for the two timeouts, and the base address. The
  environment is an abstract `ProcessEnv`. `TIMEOUT` and `TIMETOLIVE` are
  given after JavaScript's unary `+`, as `Option<int>` with `None` for NaN.

Where the code and its documentation differ, the model follows the code:

- The doc comment of `GetDriver` (`utils/builder.ts:27`) says it throws
  when creating the driver fails. The code catches every exception and
  returns `null`.
- An unknown browser name gives `undefined`, not `null`. The two are kept
  apart as `Unsupported` and `Failed`.
- `ENV_ADDRESS` for an unset `ENVIRO` is the text `"undefined"`, because
  that is how JavaScript concatenates `undefined` with a string.
- The doc comment of `nOrderStringify` gives positive examples only. The
  code also accepts negative numbers and then always answers "th", for
  example `-1` gives `"-1th"`, because JavaScript's `%` keeps the sign of
  the dividend.

## Model

| member | source | states |
|---|---|---|
| `DefaultEnvs.NumberOr` | utils/defaultEnvs.ts:22-24 | the logical-or fallback on a coerced number: NaN and 0 give the fallback, any other number is kept; the result is nonzero when the fallback is |
| `DefaultEnvs.LoadConfig` | utils/defaultEnvs.ts:3-24 | the builder's variables pass through unchanged; ENV_ADDRESS is ENVIRO with nothing appended; ENV_TIMEOUT is 60000 exactly when TIMEOUT is NaN, 0 or 60000, and otherwise is TIMEOUT; likewise ENV_TIMETOLIVE with 30000; both are nonzero |
| `JsNumbers.Rem` | utils/easifier.ts:20-21 | JavaScript's `%`: agrees with the mathematical remainder for n >= 0 and is never positive for n < 0 |
| `JsNumbers.NatToString` | utils/easifier.ts:20-29 | the `${n}` text of a natural number is nonempty, all digits, and starts with 0 only for zero |
| `JsNumbers.IntToString` | utils/easifier.ts:20-29 | the `${n}` text of an integer starts with a minus sign exactly for negative n, followed by the digits of -n; for n >= 0 it is exactly the digits of n, with no leading zero |
| `JsNumbers.NatToStringRoundTrip` | utils/easifier.ts:20-29 | reading the digits back gives the number |
| `JsNumbers.IntToStringRoundTrip` | utils/easifier.ts:20-29 | reading the text back gives the integer, so distinct integers have distinct texts |
| `Easifier.NOrderStringify` | utils/easifier.ts:19-31 | the result is the decimal text of n followed by exactly one of "st", "nd", "rd", "th" |
| `Easifier.OrdinalRoundTrip` | utils/easifier.ts:19-31 | n is recovered from its ordinal text by dropping the suffix |
| `Easifier.OrdinalSuffixRule` | utils/easifier.ts:20-29 | for n >= 0: "th" when n % 100 is 11, 12 or 13; otherwise "st", "nd", "rd" for n % 10 of 1, 2, 3; "th" for everything else, zero included |
| `Easifier.NegativeOrdinalSuffix` | utils/easifier.ts:20-29 | every negative n takes "th" |
| `Easifier.OrdinalSuffixPeriodic` | utils/easifier.ts:20-21 | for n >= 0, the suffix depends only on n % 100: numbers equal modulo 100 (n and n + 100 among them) take the same suffix |
| `Easifier.OrdinalDocumentedExamples` | utils/easifier.ts:14-18 | 0, 1, 2, 3, 4 give "0th", "1st", "2nd", "3rd", "4th" |
| `Easifier.OrdinalTeenExamples` | utils/easifier.ts:19-31 | 11, 13, 21, 112 and -1 give "11th", "13th", "21st", "112th", "-1th" |
| `Builder.SizePreset` | utils/builder.ts:18-21 | "mobile" names 425x812, "desktop" names 1440x900, and no other value (undefined included) names a preset |
| `Builder.GetDriver` | utils/builder.ts:29-52 | only the exact names "MicrosoftEdge", "chrome", "safari", "firefox" build anything, and any other name gives `undefined`; for a known name a library failure gives `null` and never escapes; otherwise the driver is for the named browser and conforms to the defaulted flags |
| `Builder.BuildSafariDriver` | utils/builder.ts:59-71 | no options, a local driver, and the preset of the size class set on the window after the build (none for other sizes); nothing when the library throws |
| `Builder.BuildChromeDriver` | utils/builder.ts:78-98 | the log-level argument always; headless iff UI is "headless"; the Chrome binary path iff binaries is "custom"; the preset as window size in the options; the grid router iff location is "remote"; nothing set after the build |
| `Builder.BuildEdgeDriver` | utils/builder.ts:105-125 | the same as for Chrome, with Edge's binary path |
| `Builder.BuildFirefoxDriver` | utils/builder.ts:132-150 | the options of SetFirefoxSettings; the grid router iff location is "remote"; the preset set on the window after the build exactly when not headless |
| `Builder.SetFirefoxSettings` | utils/builder.ts:157-205 | no arguments; headless iff UI is "headless"; the Firefox binary path iff binaries is "custom"; a window size only when headless, and then exactly the preset of the size class |
| `Builder.AppliedSizeIsPreset` | utils/builder.ts:59-205 | for every browser, the size a conforming plan applies is the preset of the size class (none for other sizes), and options and window are never both sized |
| `Builder.FirefoxSizing` | utils/builder.ts:144-205 | Firefox with "mobile" or "desktop": exactly one mechanism, the options when headless and the window when not; any other size: neither |
| `Builder.SafariIgnoresFlags` | utils/builder.ts:42-43 | two Safari plans for the same size class are equal whatever the UI, binaries, location and configuration |
| `Builder.ConformsUnique` | utils/builder.ts:37-47 | for a browser and its flags there is exactly one conforming plan, so the builders' contracts fix their results completely |

## Left out

- Selenium itself is not part of this model: the `Builder`, the Chrome, Firefox and Edge options classes, browser process launch and the WebDriver protocol. Their effect is recorded only as the fields of `DriverPlan`.
- Only synchronous exceptions are modelled. The input `libraryFails` stands for an exception thrown synchronously while the options are assembled or `build()` is called, and `GetDriver` turns it into `Failed`. Asynchronous failures are not modelled. `build()` returns a thenable driver, so a session that fails to start surfaces later as a rejected promise. The promise returned by `setRect` (`utils/builder.ts:66`, `:68`, `:145`, `:147`) is not awaited. Neither can reach the `catch` at `utils/builder.ts:49-51`, so neither ever becomes `null`.
- Reading `process.env` and JavaScript's string-to-number coercion are not modelled. The environment is an input, and the coerced timeouts are given as optional integers.
- Non-integer numbers are not modelled. This covers fractional timeouts, -0, and `nOrderStringify` on fractions. Numbers are unbounded integers, so `IntToString` matches JavaScript's `${n}` only up to 2^53 in magnitude. Beyond that, JavaScript prints the shortest digits that read back as the same double, padded with zeros: for 2^60 it prints "1152921504606847000", while `IntToString` gives "1152921504606846976". From 1e21 up JavaScript also switches to exponent notation.
- The element lookup helpers in `utils/getElBy.ts` are left out. So are `GetElByID`, `GetElByXPath`, `GetElByClass`, `GetElByCss` and `IsButtonEnabled` in `utils/easifier.ts`. Each wraps Selenium's wait primitive and returns null on any failure, with no logic of its own.
- `Delay` and `MoveCursor` are left out. They are a timer and a pass-through to Selenium's action API.
- `FetchStatus` and `FetchURL` are left out. They are network I/O through `node-fetch`.
- The test template `seleniumTests/fake.test.ts` is left out. It is Jest lifecycle code against a live browser.
