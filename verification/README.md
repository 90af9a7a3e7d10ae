# libguac-client-rdp: keymap flattening and session-settings derivation

This project models two pure pieces of the Guacamole RDP client plugin's
start-up (`src/client.c`). The rest of that file is wiring into the FreeRDP
library and the Guacamole socket.

1. **Keymap flattening** (`__guac_rdp_client_load_keymap`). A keymap node has
   a name, a mapping array that ends at the first entry whose keysym is 0, a
   keyboard layout and an optional parent. Loading a node loads its parent
   first and then copies each of the node's entries into a flat table at that
   entry's keysym. The table starts all zero. Module `Keymaps` models this as
   a recursive function over an inductive datatype, so every parent chain is
   finite and acyclic by construction. The flat table is a `map` in which an
   absent keysym reads as the all-zero entry. `CopyMapping` and
   `LoadKeymapInto` follow the source's loop and recursion and are proved equal
   to the functions.
2. **Settings derivation** (`guac_client_init` up to the connection
   attempt). Module `ClientInit` turns the argument vector, the display
   client's optimal size, the settings record freshly allocated by the RDP
   library, and the plugin's built-in defaults into one of two results:
   - a bad-argument error;
   - a session: the settings, the audio flag, the loaded keymap and the
     warnings logged on the way.

   `Init` is the computation. `Honours` states declaratively what every
   argument means, and `Init`'s contract proves the computation meets it.
   Module `CStrings` gives C's `atoi` a real definition and proves that it
   reads back what a decimal rendering writes. The lemmas about explicit
   widths, ports and depths rest on that proof.

One fact about the code the model keeps: the password argument turns on
automatic logon only when it is non-empty; an empty password leaves the
library's value untouched.

## Model

| member | source | states |
|---|---|---|
| Keymaps.Active | src/client.c:316 | the entries loading copies are exactly the prefix before the first keysym-0 sentinel (all of the array when there is none) |
| Keymaps.LoadMapping | src/client.c:315-325 | copying one mapping array writes exactly the keysyms of its active entries, leaves every other keysym's entry as it was, and keeps each entry stored under its own keysym |
| Keymaps.LoadMappingLastWins | src/client.c:316-324 | within one array the last active entry for a keysym is the one the table holds, because entries are copied in array order |
| Keymaps.LoadMappingStopsAtSentinel | src/client.c:316-325 | nothing at or after a sentinel is read: cutting the array at any sentinel gives the same table |
| Keymaps.LoadKeymapIsFlatLoad | src/client.c:308-325 | loading a node equals loading the active entries of its whole chain as one run, root first; the parent is complete before the child writes |
| Keymaps.LoadKeymapLastWins | src/client.c:299-327 | for every keysym the table holds the last entry for it in root-to-leaf order: a descendant overrides all its ancestors, and a later entry overrides an earlier one in the same node |
| Keymaps.NodeOverridesAncestors | src/client.c:308-325 | a keysym the node itself defines reads as the node's last entry for it, whatever its ancestors define |
| Keymaps.InheritedFromParent | src/client.c:308-325 | a keysym the node does not define reads exactly as after loading the parent alone |
| Keymaps.LoadKeymapFrame | src/client.c:308-325 | a keysym no node of the chain defines keeps its initial table entry |
| Keymaps.SentinelNeverWritten | src/client.c:316 | the entry for keysym 0 is never written |
| Keymaps.LoadClientKeymap | src/client.c:521-532 | from the zeroed table: every written slot holds an entry for its own keysym, exactly the chain's keysyms are written, and every other keysym reads as zero |
| Keymaps.CopyMapping | src/client.c:315-325 | the pointer-advancing loop copies exactly the active entries and builds the same table as `LoadMapping` |
| Keymaps.LoadKeymapInto | src/client.c:299-327 | the recursive procedure (parent first, then the loop) builds the same table as `LoadKeymap` |
| CStrings.AtoiOfDecimal | src/client.c:363-364 | `atoi` on leading white space, a decimal integer, and text that does not start with a digit returns that integer |
| CStrings.AtoiOfIntToString | src/client.c:395-396 | `atoi` of any integer's decimal rendering gives the integer back |
| CStrings.AtoiWithoutDigits | src/client.c:395-404 | text with no digit after the white space and optional sign reads as 0, which the width rule then treats as invalid |
| ClientInit.ArgumentPositions | src/client.c:85-119 | there are 13 argument names, and each argument position holds the argument of the name listed at that position |
| ClientInit.Dimension | src/client.c:393-417 | width/height: an empty argument gives the client's optimal value, otherwise the parsed value; a requested value of 0 or less becomes the default; the result is positive or the default |
| ClientInit.Port | src/client.c:424-435 | an explicit port is always used; with no port, a VM connection uses 2179 and anything else uses the default port |
| ClientInit.ColorDepth | src/client.c:455-466 | an empty argument gives the default; a parsed depth is kept unless it is exactly 0, so negative depths are kept |
| ClientInit.OrderFlag | src/client.c:472-499 | an order is marked supported iff it is DSTBLT, SCRBLT, OPAQUE_RECT, GLYPH_INDEX, FAST_INDEX or FAST_GLYPH, or it is MEMBLT/MEMBLT_V2 and the bitmap cache is enabled; PATBLT and all others are unsupported |
| ClientInit.OrderSupport | src/client.c:476-499 | the order-support table has a flag for each of the 24 negotiated orders, as `OrderFlag` states |
| ClientInit.CopyIfGiven | src/client.c:437-453 | domain, user name, password and initial program are copied only from non-empty arguments; otherwise the library's value stays |
| ClientInit.Warnings | src/client.c:398-466 | corrected: a warning is logged exactly when the width, height or depth falls back. There is at most one per setting, in the order width, height, depth. Each names the default it switched to and quotes its own argument |
| ClientInit.WarningsAsWritten | src/client.c:398-466 | as written: a warning is logged exactly when the width, height or depth falls back. There is at most one per setting, in the order width, height, depth. Each names the default it switched to, and every warning quotes the width argument |
| ClientInit.HeightWarningQuotesWidth | src/client.c:411-417 | counterexample: the height warning quotes the width argument, not the height argument |
| ClientInit.DepthWarningQuotesWidth | src/client.c:460-466 | counterexample: the color-depth warning quotes the width argument, not the depth argument |
| ClientInit.Init | src/client.c:350-535 | fewer than 13 arguments gives the bad-argument error and nothing else; otherwise `Honours` holds, i.e. every field follows its rule (hostname and title, port and VM-connection flags, credentials and auto-logon, dimensions with a requested value of 0 or less replaced by the default, depth, console and audio flags compared with "true", order support, keyboard layout, keymap, the corrected warnings: one per fallback, in check order, each naming its default) and every field no rule writes keeps the library's value |
| ClientInit.DimensionsPositive | src/client.c:398-417 | with positive default width and height, the desktop size is always positive |
| ClientInit.ExplicitDimensionHonoured | src/client.c:393-409 | a positive width and height written in decimal are used exactly |
| ClientInit.NonNumericWidthFallsBack | src/client.c:395-404 | a width argument with no digit after its leading white space and optional sign gives the default width, and the width warning is logged |
| ClientInit.ExplicitPortNeverOverridden | src/client.c:362-366 | a port written in decimal is the server port, whether or not a VM connection is requested |
| ClientInit.NonZeroDepthKept | src/client.c:455-466 | any non-zero depth written in decimal is used, negative depths included |
| ClientInit.ExtraArgumentsIgnored | src/client.c:350-360 | only the first 13 arguments matter: appending more does not change the result |
| ClientInit.SessionKeymapLastWins | src/client.c:521-532 | the session's keymap gives each keysym the last entry its chain defines for it, and every keysym the chain does not define reads as zero |

## Left out

- FreeRDP callback registration and context handling (src/client.c:120-297): thin wrappers over foreign library structures and function pointers.
- Clipboard and sound plugin loading, and the choice of audio encoder (src/client.c:136-188): foreign calls that depend on stream allocation.
- Mutex set-up (src/client.c:508-519): its purpose is concurrency.
- The rest of the client data: the other fields set at src/client.c:502-506 and the zeroed keysym-state table at src/client.c:522-523. Nothing in this model reads them.
- The connection attempt and what follows it (src/client.c:538-565): the connection error, the name and size sent on the socket, the cairo glyph surfaces and the default pointer. These are network, socket and graphics-library calls.
- The error text written to the socket at src/client.c:352-354: only the error kind and message are modelled.
- `strdup` ownership and log calls other than the three invalid-value warnings.
- include/default_pointer.h and include/rdp_pointer.h: they only declare constants, a structure and prototypes; the bodies are not part of this model.
- The keysym lookup macro at src/client.c:319 is not part of this model. The model indexes the table directly by keysym, so the frame and sentinel lemmas (`Keymaps.LoadKeymapFrame`, `Keymaps.SentinelNeverWritten`, `Keymaps.LoadClientKeymap`) assume that distinct keysyms get distinct slots.
- The keysym description structure is not part of this model. Entries carry a keysym, a scancode and flags. Loading copies whole entries, so further fields would behave the same.
- A mapping array with no sentinel would make the C loop run off the array. The model stops at the end of the sequence.
- The values of the built-in default port, width, height and depth are not part of this model: they are a `Defaults` parameter.
- The keymap the plugin hard-codes (en-us) is not part of this model: it is a parameter.
- `argc` is taken to be the length of the argument vector.
- Atoi: does not model C `int` overflow, which is undefined behaviour in C; the result is the exact integer value.
- Settings fields are unbounded signed integers. The library's settings structure, which fixes the C field widths, is not part of this model. The comparisons follow the code as written (`<= 0`, `== 0`).
- ClientInit.Dimension: reads the desktop width and height as signed integers. If the library declares them as unsigned 32-bit fields, `<= 0` at src/client.c:399 and 412 catches only 0. A width of "-5" would then wrap to 4294967291 and be kept, where the model falls back to the default.
- ClientInit.ColorDepth: reads the color depth as a signed integer. If the library's field is unsigned 32-bit, a depth of "-8" is stored as 4294967288, not -8. The `== 0` test at src/client.c:461 is the same either way.
- ClientInit.NonZeroDepthKept: states that a negative depth is kept as that negative value, which holds only for a signed field; with an unsigned 32-bit field it is kept modulo 2^32.
- ClientInit.Port: the server port is the `int` value `atoi` gives; if the library's port field is unsigned, a negative port wraps modulo 2^32.
- ClientInit.Init: carries the corrected warnings, not the ones src/client.c:416/465 logs. Those quote the width argument in the height and color-depth warnings; `ClientInit.WarningsAsWritten` models them, with the same conditions for when each warning is logged.
- ClientInit.OrderSupport: only the 24 order indices the code writes are modelled; other slots of the library's table are not.

## Findings

| source | as written | input that shows it | evidently intended | confidence | as-written member | corrected member |
|---|---|---|---|---|---|---|
| src/client.c:411-417 | the "Invalid height" warning quotes `argv[IDX_WIDTH]` | width "800", empty height, client optimal height 0: the warning quotes "800" | quote the height argument | high, not executed | ClientInit.HeightWarningQuotesWidth | ClientInit.Warnings |
| src/client.c:460-466 | the "Invalid color-depth" warning quotes `argv[IDX_WIDTH]` | width "800", color depth "0": the warning quotes "800" | quote the color-depth argument | high, not executed | ClientInit.DepthWarningQuotesWidth | ClientInit.Warnings |
