# Shared whiteboard: scene store and sync rules

A model, in Dafny, of the core of a two-peer whiteboard written in browser
JavaScript (`script.js`). The page keeps its scene in module-level globals:
the committed shapes (`drawings`), the images with their on-canvas boxes
(`images`), the pointer-gesture flags (`isDrawing`, `isDraggingImage`,
`isResizingImage`, `selectedImage`, the start point and the drag offset), the
current tool, colour and size, and a PeerJS data connection. Pointer events
drive `startDrawing`, `draw` and `stopDrawing`; messages from the peer go
through `handleRemoteAction`; every outgoing message passes the `sendData`
gate.

The model keeps that shape:

- `Whiteboard.Scene` is a class whose fields are those globals. The
  connection is reduced to `conn` (the remote identifier and whether the
  channel is open) and `outbox`, the messages handed to `conn.send`, oldest
  first.
- `Whiteboard.ImageItem` is a class for an image record. A drag or resize
  changes its `x`, `y`, `width` and `height` in place through
  `selectedImage`. The selected image can therefore be a record that a
  received clear has already removed from `images`, exactly as in the source.
- `Protocol.Message` is a message object `{type, ...fields}`. The
  discriminant is called `kind`, because `type` is a Dafny keyword. A
  committed shape is stored in `drawings` as the same kind of object.
- `Geometry` holds the pure formulas: the pointer-down hit test, drag,
  resize, the triangle's third vertex and the upload size.
- Coordinates and sizes are `real`.

Two quirks are reproduced as the source has them:

- **Shape message type.** `stopDrawing` sends `{type: 'shape', ...newShape}`.
  The spread copies the record's own `type` (the tool name) over `'shape'`.
  The receiving peer's dispatch has no case for a tool name, so a shape drawn
  on one side never reaches the other side's `drawings`. `DeliverShape`
  shows this end to end.
- **Clear echo.** A received `clear` runs `clearCanvas`, which sends `clear`
  again when the channel is open. With two open peers, each clear is
  answered by another. `DeliverClear` shows one round.

## Model

| member | source | states |
|---|---|---|
| Geometry.HitTest | script.js:159-181 | the scan returns an index into the image list or a miss; handle before body, last image first |
| Geometry.HitTestTopmost | script.js:159-186 | a resize hit is in the strict ±15 handle zone; a drag hit is in the closed box and not the handle zone; every image above the hit grabs nothing; a miss happens exactly when no image grabs the point |
| Geometry.Dragged | script.js:202-204 | after a drag move, the pointer minus the image corner is still the grab offset; the size is kept |
| Geometry.Resized | script.js:210-221 | the corner stays put; the width is the larger of 20 and the pointer's distance; without Shift the height is too; with Shift height·naturalWidth = width·naturalHeight (in exact arithmetic), with no lower clamp |
| Geometry.ShiftResizeUnclamped | script.js:214-217 | a 100×10 image resized with Shift to width 20 gets height 2, below the 20 floor |
| Geometry.TriangleThird | script.js:305-309 | the third vertex lies on the base line y = y2, mirrors (x2, y2) across x = x1, and is as far from (x1, y1) as (x2, y2) is (isosceles) |
| Geometry.FitUpload | script.js:394-407 | the computed size satisfies UploadSize: unchanged if both sides are ≤ 300; otherwise the wider side, or the height on a tie, is exactly 300; the aspect ratio is always kept (in exact arithmetic) |
| Geometry.UploadSizeUnique | script.js:394-407 | UploadSize determines one width and one height for each natural size |
| Geometry.UploadSizeBounded | script.js:394-407 | an upload size is positive and at most 300 on each side |
| Protocol.Route | script.js:63-79 | `draw`, `shape`, `clear` and `image` each select their own action; any other type selects none |
| Protocol.ShapeRecord | script.js:258-264 | a committed shape's type is exactly its tool (one of line/rect/circle/triangle), never `shape`; its fields are the two points, colour and size |
| Protocol.ShapeRecordIgnored | script.js:258-271 | the sent shape message is routed to no action by the receiving peer |
| Protocol.Trim | script.js:466 | the trimmed identifier is empty exactly when every character is white space; otherwise it starts and ends with a non-space; it is a slice of the input surrounded only by white space |
| Whiteboard.ImageItem.constructor | script.js:409-415 | a new image record has the given box and the bitmap's natural size |
| Whiteboard.Scene.constructor | script.js:6-26 | the initial state: no shapes, no images, no selection, all flags false, pencil, black, size 5, no connection, nothing sent |
| Whiteboard.Scene.SendData | script.js:82-86 | the message is appended to the outbox if and only if a channel exists and is open; nothing else changes |
| Whiteboard.Scene.ClearCanvas | script.js:450-456 | shapes and images end empty whatever they held; one `clear` is sent exactly when the channel is open |
| Whiteboard.Scene.AddRemoteImage | script.js:434-447 | a decoded image payload appends one new image object with the message's box and the decoded natural size, keeping the existing image objects in place; no append without a decoded bitmap |
| Whiteboard.Scene.HandleRemoteAction | script.js:63-79 | `shape` appends the message itself once and touches nothing else; `clear` empties both lists and echoes `clear` when open; `image` appends one new image object with the message's box and decoded natural size (keeping the existing objects in place) when its bitmap decodes, and nothing otherwise; `draw` and unknown types change no state |
| Whiteboard.Scene.SetTool | script.js:111-112 | the selected tool becomes the current tool |
| Whiteboard.Scene.SetColor | script.js:102 | the picked colour becomes the current colour |
| Whiteboard.Scene.SetSize | script.js:103-104 | the picked size becomes the current size |
| Whiteboard.Scene.StartDrawing | script.js:153-194 | the flags follow HitTest on the images: a handle hit sets resizing, the selection and the start point; a body hit sets dragging, the selection and the offset (pointer − corner); a miss sets drawing and the start point; all other fields keep their values |
| Whiteboard.Scene.Draw | script.js:196-250 | dragging moves the selected image by Dragged; otherwise resizing resizes it by Resized; otherwise a pencil or eraser stroke sends one sample through the gate (an eraser sends white at twice the size); no other image changes |
| Whiteboard.Scene.StopDrawing | script.js:252-278 | exactly when drawing with a shape tool, one record {tool, start, end, colour, size} is appended and the same record is sent through the gate; in every case all three flags end false and the selection null |
| Whiteboard.Scene.UploadImage | script.js:393-427 | one new image object carrying the bitmap's natural size is appended at (50, 50) with the UploadSize of that natural size, the existing objects kept in place, and its `image` message is sent through the gate |
| Whiteboard.Scene.ConnectToPeer | script.js:465-471 | an identifier that trims to empty leaves the connection untouched; otherwise a new, not yet open channel to the trimmed identifier replaces it |
| Whiteboard.Scene.AcceptConnection | script.js:42-45 | an incoming connection replaces the current one, not yet open |
| Whiteboard.Scene.SetChannelOpen | script.js:48-59 | the transport's open or close signal sets the current channel's open flag; no channel means no change |
| Whiteboard.DeliverShape | script.js:252-271 | with two open peers, the sender gains one shape and the receiver's shapes and images stay as they were |
| Whiteboard.DeliverClear | script.js:450-456 | with two open peers, a clear empties both scenes and each side sends exactly one `clear` |

## Left out

- Rendering (`drawBackground`, `drawShape`, `redrawAll`, `drawRemote`, the grid) only paints the 2-D context and changes no scene state, so it is not modelled. The circle radius (`Math.sqrt`) belongs to it and is left out for the same reason.
- PeerJS itself (`initPeerJS`, peer identifiers from the server, the status text in `setupConnection`) is network and DOM code. The channel is reduced to `conn` and `outbox`, and `SetChannelOpen` stands for the library flipping `conn.open`.
- Image decoding (`FileReader`, `Image.onload`) is asynchronous browser code. Its outcome is a parameter: the natural size of a decoded bitmap, or `None` for a remote payload that never loads. The model therefore does not capture decodes that complete in a different order from message arrival. A bitmap whose natural width or height is 0 is not modelled, because the JavaScript ratio would be NaN or Infinity. The upload handler's early return when no file was chosen happens before any decode and changes nothing, so it is not modelled.
- A remote message whose fields do not match its `type` would make JavaScript read `undefined`. The model's messages carry typed fields. An `image` message without a bitmap is treated as a failed load, which is what the browser does with an `undefined` source.
- `startX` and `startY` are `undefined` until the first pointer-down. The model starts them at 0, and no commit reads them before they are set.
- The size picker delivers a string, which JavaScript coerces when doubling it for the eraser. The model keeps sizes as numbers.
- UI chrome is not modelled: button highlighting in `setTool`, `toggleGrid`, `saveCanvas`, `copyMyId` and the status texts.
- Trimming treats as white space the fixed set of characters that `String.prototype.trim` removes (ECMAScript white space and line terminators). Dafny has no Unicode category data, so the set is written out.
- Geometry.FitUpload: JavaScript numbers are IEEE doubles, and `300 / ratio` and `300 * ratio` round. The model computes over `real`, so the proportion `width·naturalHeight = height·naturalWidth` holds exactly only in the model. On the page it holds up to rounding. The sides fixed at 300, and an unchanged size, are exact on the page too.
- Geometry.UploadSize: states that proportion in exact arithmetic, for the same reason.
- Geometry.Resized: with Shift, `newWidth / ratio` rounds on the page. `height·naturalWidth = width·naturalHeight` holds exactly only in the model. The clamps to 20 are exact on the page too.
