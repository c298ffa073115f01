# Aptana Studio editor and portal utilities: a verified model

This project models three small pieces of logic from the Aptana Studio IDE plugins in Dafny and proves properties about them.

- **Scope translation** (`ContentTypes`, in `content_types.dfy`). The table behind `ContentTypeTranslation` maps qualified content types (scope names, modelled as sequences of parts) to other qualified content types.
  - `AddTranslation` puts one entry into the table.
  - `Translate` strips parts off the end of a content type until what is left is a key, which is the longest key prefix. It then appends the one-part translations of the stripped parts, in their original order. Parts that have no one-part translation are dropped.
  - The class keeps the table as a field that `AddTranslation` updates in place. `Translate` is a loop proved against the specification function `Translation`.
- **Documentation-comment scanner** (`SDocScanning`, in `sdoc_scanner.dfy`). The `SDocScanner` class feeds the SDoc parser. It merges a primary lexer with a type lexer, and the type lexer expands each `TYPES` token.
  - Pending symbols wait in a FIFO queue that `NextToken` drains first.
  - Otherwise `NextToken` skips whitespace tokens, then either expands a `TYPES` token or turns the token into a symbol.
  - Every symbol's positions are shifted by `offset`, with `end = start + length - 1`.
  - The two lexers are class constants. `lexer` gives the tokens over a whole document, and `typeLexer` gives the tokens over a range. The scanner's state is the document, the primary lexer's token sequence and cursor, the queue and the shift.
- **Browser request dispatcher** (`BrowserDispatch`, in `dispatcher.dfy`). `Function` is the browser function that portal pages call with one JSON request.
  - It checks the argument array, then that the request is a map, then the controller, then the action.
  - Each failed check gives one error code.
  - It then normalises the request's arguments into an array and calls the controller.
  - The JSON parser and the controllers' `invokeAction` are function parameters. The controller registry is a map from controller ids to their action names.

`wrappers.dfy` holds the `Option` type that stands for Java's `null` results.

A point the code settles that a reader might not expect: `JSON.parse` of the request itself (`DispatcherBrowserFunction.java:64`) is outside the `try` block. A request that the parser rejects with an exception therefore escapes `function` as that exception; it does not become a `WRONG_ARGUMENTS` notification. The same holds for a controller id or action that is present but not a string, because the casts at lines 71 and 78 throw `ClassCastException`. The model returns `Raised` for all of these. Only a parse failure of the *arguments* (lines 92, 103-115) is caught and reported as `WRONG_ARGUMENTS`.

## Model

| member | source | states |
|---|---|---|
| `ContentTypes.ContentTypeTranslation.constructor` | plugins/com.aptana.editor.common/src/com/aptana/editor/common/tmp/ContentTypeTranslation.java:55-68 | a new translation table is empty |
| `ContentTypes.ContentTypeTranslation.AddTranslation` | plugins/com.aptana.editor.common/src/com/aptana/editor/common/tmp/ContentTypeTranslation.java:77-80 | `left` now maps to `right`, replacing any earlier entry; every other key keeps its presence and its value |
| `ContentTypes.ContentTypeTranslation.Translate` | plugins/com.aptana.editor.common/src/com/aptana/editor/common/tmp/ContentTypeTranslation.java:82-108 | the strip-then-append loops compute exactly `Translation(table, contentType)`; the method has no `modifies` clause, so the table is left unchanged |
| `ContentTypes.KeyPrefixAtMost` | plugins/com.aptana.editor.common/src/com/aptana/editor/common/tmp/ContentTypeTranslation.java:88-92 | the prefix found is a key, and no longer prefix (up to the bound) is a key; None only when no prefix down to the empty one is a key |
| `ContentTypes.LongestKeyPrefixIs` | plugins/com.aptana.editor.common/src/com/aptana/editor/common/tmp/ContentTypeTranslation.java:88-92 | a key prefix with no longer key prefix is the one the stripping loop stops at |
| `ContentTypes.TranslationWithoutKey` | plugins/com.aptana.editor.common/src/com/aptana/editor/common/tmp/ContentTypeTranslation.java:88-107 | when no prefix (including the empty content type) is a key, the input is returned unchanged |
| `ContentTypes.TranslationOfKey` | plugins/com.aptana.editor.common/src/com/aptana/editor/common/tmp/ContentTypeTranslation.java:88-105 | a content type that is itself a key translates to exactly its mapped value |
| `ContentTypes.UntranslatedPartsDropped` | plugins/com.aptana.editor.common/src/com/aptana/editor/common/tmp/ContentTypeTranslation.java:96-104 | stripped parts without a one-part translation contribute nothing to the result |
| `ContentTypes.PartTranslationsAppend` | plugins/com.aptana.editor.common/src/com/aptana/editor/common/tmp/ContentTypeTranslation.java:90-104 | stripped parts are translated left to right: the translations of a concatenation are the concatenation of the translations |
| `ContentTypes.TranslationAfterAdd` | plugins/com.aptana.editor.common/src/com/aptana/editor/common/tmp/ContentTypeTranslation.java:77-105 | after adding `left -> right`, `left` translates to exactly `right` |
| `ContentTypes.TranslationOfKeyAndPart` | plugins/com.aptana.editor.common/src/com/aptana/editor/common/tmp/ContentTypeTranslation.java:93-105 | a key followed by one part that has its own translation gives the key's value followed by the part's value |
| `SDocScanning.MakeSymbol` | plugins/com.aptana.editor.js/src/com/aptana/editor/js/sdoc/parsing/SDocScanner.java:150-161 | a symbol is built exactly when the token's range is inside the document, with `start = offset + shift`, `end = start + length - 1`, and text exactly the document's characters in that range |
| `SDocScanning.PrimarySymbol` | plugins/com.aptana.editor.js/src/com/aptana/editor/js/sdoc/parsing/SDocScanner.java:106-124 | the offset is clamped to the document length and a length of -1 is read as 0, so `end = start - 1` with empty text; the text is the document's characters in the clamped range; the exact condition for a scanner exception |
| `SDocScanning.TypeSymbolsFollowTokens` | plugins/com.aptana.editor.js/src/com/aptana/editor/js/sdoc/parsing/SDocScanner.java:140-162 | the queued symbols are those of the type lexer's leading tokens, in production order, up to its end token; an incomplete run stopped at the first token outside the document |
| `SDocScanning.SkipWhitespace` | plugins/com.aptana.editor.js/src/com/aptana/editor/js/sdoc/parsing/SDocScanner.java:85-92 | every token skipped is whitespace and the token stopped at is not |
| `SDocScanning.PrimaryResultNotWhitespace` | plugins/com.aptana.editor.js/src/com/aptana/editor/js/sdoc/parsing/SDocScanner.java:85-119 | a symbol made from a primary token is never whitespace or `TYPES`; one made from a token with null data is an end-of-file symbol; the cursor has moved past all skipped whitespace and the token itself; nothing is queued |
| `SDocScanning.TypesTokenExpanded` | plugins/com.aptana.editor.js/src/com/aptana/editor/js/sdoc/parsing/SDocScanner.java:98-103 | a `TYPES` token is replaced by the type lexer's symbols: the first is returned and the rest are queued in order; with none the result is `null`; on an exception the partial queue is kept |
| `SDocScanning.EndOfInputSymbol` | plugins/com.aptana.editor.js/src/com/aptana/editor/js/sdoc/parsing/SDocScanner.java:94-119 | with only whitespace left, the result is the empty end-of-file symbol at the end of the document with `end = start - 1` |
| `SDocScanning.ShiftMovesSymbol` | plugins/com.aptana.editor.js/src/com/aptana/editor/js/sdoc/parsing/SDocScanner.java:170-173 | changing the shift moves a symbol's start and end by the same amount and changes nothing else |
| `SDocScanning.SDocScanner.constructor` | plugins/com.aptana.editor.js/src/com/aptana/editor/js/sdoc/parsing/SDocScanner.java:63-68 | a new scanner has its two lexers, an empty queue, a zero shift and no document |
| `SDocScanning.SDocScanner.SetOffset` | plugins/com.aptana.editor.js/src/com/aptana/editor/js/sdoc/parsing/SDocScanner.java:170-173 | only the shift changes |
| `SDocScanning.SDocScanner.SetSource` | plugins/com.aptana.editor.js/src/com/aptana/editor/js/sdoc/parsing/SDocScanner.java:180-194 | the primary lexer restarts at the beginning of the new document; the queue and the shift are untouched |
| `SDocScanning.SDocScanner.ReadToken` | plugins/com.aptana.editor.js/src/com/aptana/editor/js/sdoc/parsing/SDocScanner.java:85-91 | the primary lexer returns its next token and advances by one; past its tokens it keeps returning the end token |
| `SDocScanning.SDocScanner.QueueTypeTokens` | plugins/com.aptana.editor.js/src/com/aptana/editor/js/sdoc/parsing/SDocScanner.java:138-163 | the queue is extended by exactly `TypeSymbols` of the type lexer's tokens over the range, in order; false exactly when the range of some token before the type lexer's first end token lies outside the document |
| `SDocScanning.SDocScanner.NextToken` | plugins/com.aptana.editor.js/src/com/aptana/editor/js/sdoc/parsing/SDocScanner.java:75-129 | with a non-empty queue, the head is returned and removed and the primary lexer is not read; otherwise result, queue and cursor are exactly `Pull` of the old state |
| `BrowserDispatch.NormaliseArguments` | plugins/com.aptana.portal.ui/src/com/aptana/portal/ui/dispatch/browserFunctions/DispatcherBrowserFunction.java:84-115 | absent arguments stay null; a map is wrapped without re-parsing; any other value is re-parsed, an array result is passed as it is and anything else is wrapped in a one-element array; failure exactly when the re-parse throws |
| `BrowserDispatch.Function` | plugins/com.aptana.portal.ui/src/com/aptana/portal/ui/dispatch/browserFunctions/DispatcherBrowserFunction.java:57-134 | a null argument array, one of length other than 1, or a null request gives `WRONG_ARGUMENTS`; a reply happens only if every check passes (`Accepted`), and then it is exactly what `invokeAction` of the named controller and action returns for the normalised arguments (the synchronous `dispatch`) |
| `BrowserDispatch.ErrorsDoNotDispatch` | plugins/com.aptana.portal.ui/src/com/aptana/portal/ui/dispatch/browserFunctions/DispatcherBrowserFunction.java:59-117 | an outcome other than a reply does not depend on the controllers: nothing was dispatched |
| `BrowserDispatch.ChecksInOrder` | plugins/com.aptana.portal.ui/src/com/aptana/portal/ui/dispatch/browserFunctions/DispatcherBrowserFunction.java:59-115 | the checks run as arguments, then map, then controller, then action, then argument parse, and the first failing one gives the error code |
| `BrowserDispatch.ExceptionsEscape` | plugins/com.aptana.portal.ui/src/com/aptana/portal/ui/dispatch/browserFunctions/DispatcherBrowserFunction.java:59-83 | for a well-formed call, a request the parser rejects, a controller id that is neither null nor a string, and (for a registered controller) an action that is neither null nor a string each escape as an exception rather than an error notification |

## Left out

- `ProcessWrapper` (the terminal's shell subprocess) is not part of this model. It is process spawning, reader threads and a lock-protected buffer, all of which are I/O and concurrency.
- The lexing rules of `SDocTokenScanner` and `SDocTypeTokenScanner` are not modelled. The scanner takes each lexer's output as given: `lexer(document)` and `typeLexer(document, offset, length)`.
- The primary lexer's behaviour past its last token is an assumption. The model has it keep returning `Token.EOF` at the document length with length 0.
- The type lexer's tokens are read up to its first `Token.EOF`, as the loop at `SDocScanner.java:143` does.
- `SDocScanning.SDocScanner.NextToken` requires that `SetSource` was called first. Before that, the source has a null document and would throw `NullPointerException`.
- Symbol ids are modelled as the token type itself, not as `SDocTokenType.getIndex()`.
- Positions are unbounded integers. The model does not capture Java's 32-bit wrap-around of `offset + fOffset + length - 1`, which only matters for offsets near 2^31.
- The message text of `BadLocationException` and `Scanner.Exception` is not modelled. An exception is the outcome `ScannerException`.
- A `null` value in the translation table is not modelled. In Java, `map.get` would return it exactly as for a missing key. The model's table values are always content types.
- `ContentTypeTranslation.getDefault` (the lazy global singleton) is not modelled. A table is constructed explicitly with the constructor.
- The JSON parser is not modelled. `parse(v)` stands for `JSON.parse(v.toString())`, so `toString` is folded into it. This includes what the parser makes of `Object[].toString()`.
- The values of the `DISPATCH_*` key constants are an assumption. They live in `IBrowserNotificationConstants`, which is not part of this model. The model uses `controller`, `action` and `args`, as in the source's usage examples.
- The `BrowserInteractionRegistry` singleton is modelled as a map from controller id to action names. `hasAction` is membership in that set. A null controller id finds no controller.
- The error notification's JSON text, the `Messages` strings and the logging calls are not modelled. An error is its error code.
- `IDocument.get(offset, length)` is assumed to behave as JFace's `Document` does: it throws exactly when the range does not lie inside the document, and otherwise returns the characters of that range. `MakeSymbol` and `PrimarySymbol` build this assumption in.
- `setSource(IDocument)` is modelled only through the `setSource(String)` overload. A document is modelled by its text.
- Token data that is neither null nor an `SDocTokenType` is not modelled. The casts at `SDocScanner.java:96` and `148` would throw `ClassCastException` for it, and `TokenData` cannot represent such data.
- An exception thrown by a controller's `invokeAction` (`DispatcherBrowserFunction.java:133`) is not modelled. `invoke` always returns a value.
