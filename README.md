# TestEngine core, modelled in Dafny

`TestEngine` is the engine behind an Android UI-automation facade. Almost all of it
forwards calls to the platform's UiAutomator library. This project models the parts
that contain logic of their own:

- **Pixel-window checksum and search** (module `PixelChecksum`, file `pixel_checksum.dfy`).
  - `getPixelsChecksum(x, y)` sums three runs of `2 * DEVIATION + 1` consecutive
    entries of the row-major ARGB buffer. The runs are centred on `c = y * width + x`,
    on `c - width` and on `c + width`.
  - `getCoordinatesWithPixelsChecksum(checkSum)` scans the interior candidates in
    row-major order. It keeps the flat index in a hand-maintained `index` variable and
    returns the first candidate whose window sum equals `checkSum`, or `(-1, -1)`.
  - Both are modelled as methods with the source's loops. Their contracts are stated
    against the specification functions `RunSum`, `WindowSum`, `CandidateChecksum`,
    `Matches` and `IsScanResult`.
  - The `long` accumulator of the checksum is a Dafny `newtype` with the `long` range,
    so the verifier proves it never overflows. The scan's `int` accumulator wraps modulo
    2^32, written out with `Wrap32`.
- **Watcher-name registry** (module `Watchers`, file `watchers.dfy`).
  - Class `TestEngine` holds the `watchers` set, which its methods update in place.
  - The device's own watcher table is not visible to the engine. It is modelled by a
    ghost log of the `registerWatcher` and `removeWatcher` calls the engine makes.
  - The class invariant says the set always equals the device table built by those calls.
  - The log is disciplined: no name is registered while the device holds it, and no
    name is removed unless the device holds it.
- **String dispatch** (module `Dispatch`, file `dispatch.dfy`).
  - Covers `pressKey`, `click` and `longClick` with a corner, `swipe` with a direction,
    and `setOrientation`.
  - Each dispatcher is a pure function from the argument to the device call it makes, or
    `None` when the name is not recognised. Each one is tied to a lookup table of the
    accepted names.
- **Java integers** (module `JavaInt`, file `java_int.dfy`): the `int` and `long`
  ranges and `int` wrap-around.

The screenshot is a parameter: an `Image` value holding width, height and the pixel
buffer.

## Model

| member | source | states |
|---|---|---|
| `PixelChecksum.GetPixelsChecksum` | src/com/uiautomation/framework/engine/TestEngine.java:872-895 | The result is the exact sum of the 63 entries `[c-D-w, c+D-w]`, `[c-D, c+D]`, `[c-D+w, c+D+w]` with `c = y*width + x`. It is ArrayIndexOutOfBounds exactly when `c-D-w < 0` or `c+D+w >= width*height`. A window near the left or right edge continues into the neighbouring row instead of failing. |
| `PixelChecksum.AddRunChecked` | src/com/uiautomation/framework/engine/TestEngine.java:881-883 | One bounds-checked `for` loop over `[from, to]` on a `long`. It fails exactly when the run leaves the buffer; otherwise it adds exactly the run's sum, with no `long` overflow. |
| `PixelChecksum.RunSumBounds` | src/com/uiautomation/framework/engine/TestEngine.java:881-883 | A run of n Java `int`s sums to between `-2^31 * n` and `(2^31 - 1) * n`. |
| `PixelChecksum.WindowSumFitsLong` | src/com/uiautomation/framework/engine/TestEngine.java:877-894 | The window sum lies in `[-2^31 * 63, (2^31 - 1) * 63]`, so the `long` checksum never overflows. |
| `PixelChecksum.CandidateWindowInBounds` | src/com/uiautomation/framework/engine/TestEngine.java:905-924 | Every window the scan reads lies inside `[0, width*height)`. |
| `PixelChecksum.InteriorIndexBounds` | src/com/uiautomation/framework/engine/TestEngine.java:907-908 | For `1 <= y <= height-2` and `D <= x <= width-D-1`, both `y*w + x - D - w >= 0` and `y*w + x + D + w < h*w` hold. |
| `PixelChecksum.CandidateChecksum` | src/com/uiautomation/framework/engine/TestEngine.java:877-894 | The exact checksum of a scan candidate always fits in a `long`. |
| `PixelChecksum.CandidateIndexFits` | src/com/uiautomation/framework/engine/TestEngine.java:877-880 | getPixelsChecksum's `int` index arithmetic does not overflow at any scan candidate. |
| `JavaInt.WrapAddLeft` | src/com/uiautomation/framework/engine/TestEngine.java:906-924 | Repeated `int +=` gives the exact total reduced once modulo 2^32. |
| `PixelChecksum.AddRunWrapped` | src/com/uiautomation/framework/engine/TestEngine.java:912-914 | The `int` run loop yields the run sum added to the start value, wrapped modulo 2^32. |
| `PixelChecksum.CandidateSum` | src/com/uiautomation/framework/engine/TestEngine.java:909-924 | The three run loops at a candidate read only in-bounds entries and yield the window sum wrapped to `int`. |
| `PixelChecksum.GetCoordinatesWithPixelsChecksum` | src/com/uiautomation/framework/engine/TestEngine.java:897-940 | Returns the first candidate in row-major order (`y` in `[1, height-2]`, then `x` in `[D, width-D-1]`) whose `int` sum, widened to `long`, equals `checkSum`. No earlier candidate matches. If none matches it returns `(-1, -1)`, and it returns `(-1, -1)` outright when `width < 2D+1` or `height < 3`. The outer loop keeps `index == y*width + D` at the start of each row. |
| `PixelChecksum.ScanRow` | src/com/uiautomation/framework/engine/TestEngine.java:908-935 | The inner loop over one row returns the first matching column with no earlier match in the row. When nothing matches, the whole row is cleared and `index` lands on `(y+1)*width + D` after skipping `2D` columns. Its invariants keep `index == y*width + x` and `0 <= index <= width*height`. |
| `PixelChecksum.ChecksumRoundTrip` | src/com/uiautomation/framework/engine/TestEngine.java:872-940 | Searching the same screenshot for the checksum of candidate `(x, y)` gives `(x, y)` or an earlier candidate when the sum fits in an `int`. It gives `(-1, -1)` when the sum does not fit. |
| `PixelChecksum.ScanFindsFittingChecksum` | src/com/uiautomation/framework/engine/TestEngine.java:906-929 | A scan for a candidate's checksum that fits in an `int` succeeds, at that candidate or an earlier one. |
| `PixelChecksum.ScanMissesWideChecksum` | src/com/uiautomation/framework/engine/TestEngine.java:906-925 | A scan for a checksum outside the `int` range always returns `(-1, -1)`, because the `int` accumulator never equals it. |
| `PixelChecksum.ScanFindsUniqueLandmark` | src/com/uiautomation/framework/engine/TestEngine.java:925-929 | If no other candidate has the same `int` sum, the scan for a candidate's checksum returns exactly that candidate. |
| `PixelChecksum.RunSumOfOnes` | src/com/uiautomation/framework/engine/TestEngine.java:881-883 | A run of pixels that all equal 1 sums to its length. |
| `PixelChecksum.OnesImageScan` | src/com/uiautomation/framework/engine/TestEngine.java:907-929 | On a 23 x 4 screenshot of ones, the scan for 63 returns the first candidate, `(10, 1)`. |
| `PixelChecksum.OnesEveryCandidateMatches` | src/com/uiautomation/framework/engine/TestEngine.java:907-925 | On a 23 x 4 screenshot of ones, every scan candidate's window sums to 63 and so matches 63. |
| `Watchers.DisciplinedTableSize` | src/com/uiautomation/framework/engine/TestEngine.java:610-653 | Under the engine's discipline the device holds exactly (registrations − removals) watchers. No registration overwrites another and no removal is a no-op. |
| `Watchers.CopySelectors` | src/com/uiautomation/framework/engine/TestEngine.java:616-619 | The watcher gets a fresh array with the same selectors as the caller's. |
| `Watchers.TestEngine.constructor` | src/com/uiautomation/framework/engine/TestEngine.java:41 | The engine starts with no watchers and has made no device calls. |
| `Watchers.TestEngine.RemoveWatcher` | src/com/uiautomation/framework/engine/TestEngine.java:646-654 | Only a held name is removed, from the device and from the set. No other name changes, and an absent name causes no device call. |
| `Watchers.TestEngine.AddWatcher` | src/com/uiautomation/framework/engine/TestEngine.java:620-622 | Registers a name that is not held: one device call, the set gains the name, and the device table maps it to the watcher. |
| `Watchers.TestEngine.RegisterClickUiObjectWatcher` | src/com/uiautomation/framework/engine/TestEngine.java:607-625 | A held name is first removed from the device and the set. With non-null conditions the name is then in the set and no other name changes, and the device table maps the name to a click watcher over a copy of the conditions. With null conditions the source throws NullPointerException at `conditions.length`: the name is gone from the device and the set, and nothing is registered. |
| `Watchers.TestEngine.RegisterPressKeysWatcher` | src/com/uiautomation/framework/engine/TestEngine.java:627-644 | Same as RegisterClickUiObjectWatcher, for a press-keys watcher, including the NullPointerException after the removal when the conditions are null. |
| `Watchers.TestEngine.GetWatchers` | src/com/uiautomation/framework/engine/TestEngine.java:666-671 | Returns exactly the set's names, each once. |
| `Dispatch.ToLower` | src/com/uiautomation/framework/engine/TestEngine.java:194 | Lower-casing keeps the length and lower-cases each character. |
| `Dispatch.LowerOfEqualsIgnoreCase` | src/com/uiautomation/framework/engine/TestEngine.java:124 | Strings equal up to case lower-case to the same string. |
| `Dispatch.PressKeyCall` | src/com/uiautomation/framework/engine/TestEngine.java:191-237 | No device call happens exactly for names outside the accepted table. `KEYCODE_POWER` is reached exactly for "power", in any case. |
| `Dispatch.PressOfLowerName` | src/com/uiautomation/framework/engine/TestEngine.java:195-234 | The if-chain on the lower-cased key agrees with the table of accepted names: every accepted name makes the press the table lists ("delete" and "del" both press delete). Any other name makes no press. |
| `Dispatch.CornerOfLowerName` | src/com/uiautomation/framework/engine/TestEngine.java:125-132 | The corner if-chain on the lower-cased name agrees with the table of accepted corner names. Any other name gives no corner. |
| `Dispatch.CornerOf` | src/com/uiautomation/framework/engine/TestEngine.java:121-132 | A null corner means center. Otherwise the corner is the table's entry for the lower-cased name, or none. |
| `Dispatch.ClickCall` | src/com/uiautomation/framework/engine/TestEngine.java:117-133 | Bottom-right, top-left and center clicks correspond one-to-one to the parsed corner. An unrecognised corner makes no click. |
| `Dispatch.LongClickCall` | src/com/uiautomation/framework/engine/TestEngine.java:153-169 | The same correspondence, for long clicks. |
| `Dispatch.SwipeCall` | src/com/uiautomation/framework/engine/TestEngine.java:291-307 | An unrecognised direction makes no swipe. Otherwise the swipe goes toward the table's direction with the given steps. |
| `Dispatch.OrientationCall` | src/com/uiautomation/framework/engine/TestEngine.java:387-396 | The orientation is the table's entry for the lower-cased name. An unrecognised name does nothing. |
| `Dispatch.Outcome` | src/com/uiautomation/framework/engine/TestEngine.java:295-306 | A dispatcher returns true only if it made a call, and then returns whatever the device reports. |
| `Dispatch.DispatchIgnoresCase` | src/com/uiautomation/framework/engine/TestEngine.java:194 | Every dispatcher makes the same call for arguments that are equal up to case. |
| `Dispatch.UpperCasePowerPressesPower` | src/com/uiautomation/framework/engine/TestEngine.java:231-234 | "POWER" presses `KEYCODE_POWER`. |
| `Dispatch.VolumeUpNeedsUnderscore` | src/com/uiautomation/framework/utils/Constant.java:35 | The value of `Constant.VOLUMEUP`, "volumeup", is not accepted by pressKey. |

## Left out

- Screenshot capture (`getScreenShotBitmap`, `getPixels`): file I/O, a 3-second sleep and bitmap decoding. The pixel buffer is a parameter instead. In the source each checksum call captures its own screenshot, so `ChecksumRoundTrip` holds only for two calls on the same screenshot.
- `GetPixelsChecksum`: requires that the `int` index arithmetic `y * width + x ± (DEVIATION + width)` does not overflow. Coordinates far outside the screen, where Java would wrap the index, are not modelled.
- The `Log.d` call on a match, `synchronized (watchers)` and every other concurrency concern: the registry is modelled sequentially.
- `String.toLowerCase` is modelled for ASCII letters only. Locale-dependent and non-ASCII case mappings are not modelled.
- A null `key` in `pressKey` or a null `dir` in `swipe` or `setOrientation` throws NullPointerException in the source; strings are never null here. Only the null corner, which the source handles, is modelled (as `None`).
- RegisterClickUiObjectWatcher, RegisterPressKeysWatcher, RemoveWatcher: a null watcher `name` (which the `HashSet` accepts) and a null `keys` array are not modelled; names are strings and keys a sequence. The null `conditions` array is modelled.
- The device's side of every call (`UiDevice`, `UiObject`): what a click, swipe, key press or orientation change does, and the boolean it reports. This is represented by `Outcome`'s `device` function.
- The device's watcher table starts empty in the model. Watchers registered on the device by other code are not modelled.
- The `keys` array of `registerPressKeyskWatcher` is passed to the watcher without a copy. The model stores its contents as a value, so aliasing with the caller's array is not captured.
- `getWatchers` returns a `HashSet`'s elements in hash order. The model promises the elements, each once, in no particular order.
- Watchers.TestEngine.constructor: the `waitTimeout` parameter and the `Configurator.setWaitForSelectorTimeout` call it makes are not modelled, because they configure UiAutomator, not the engine's state.
- Everything else in TestEngine forwards one call to UiAutomator or runs processes and files: `executeCmd`, `runCommand`, `runCmdAndVerify`, `openApplication`, `dumpWindow`, `screenshot`, the `UiScrollable`/`UiCollection` helpers, and the reflection helpers `setAsVerticalList`/`setAsHorizontalList`. None of it is modelled.
- `UiAutoTestCase.java` is test-lifecycle plumbing. `ITestEngine.java` is an interface with no behaviour, and `ConfigProperties.java` is a properties-file loader. The watcher classes are thin wrappers over `UiObject`. Of `Constant.java`, only the value of `VOLUMEUP` is used.
