# AI banner platform: editor history and overlay geometry in Dafny

This project models the two pieces of decision logic in the AI banner platform.

- **The banner editor's state** (`frontend/src/components/BannerCanvas.js`). This is module `CanvasEditor`.
  - A bounded undo/redo history holds at most 5 canvas snapshots and a cursor `historyIndex`.
  - The zoom controls clamp at 0.1.
  - Each canvas-size input falls back to 100 on bad input.
  - The layers panel lists the canvas objects top-most first.
- **The backend's compositing step** (`backend/banner_generator/overlay.py`). This is module `Overlay`.
  - It gives the bounding box and stroke width of an outlined rectangle or circle.
  - It picks the font file name from the bold flag.
  - It resolves a font file: the bundled copy first, then one system Arial that depends on `os.name`, then FileNotFoundError.
  - It refuses a logo path that does not exist before it touches the image.

`wrappers.dfy` holds the `Option` and `Result` datatypes used by both modules.

The editor component keeps its state in a class, `CanvasEditor.BannerCanvas<S>`.
- Its fields are `history`, `historyIndex`, `zoomLevel` and `canvasSize`.
- Its handlers are methods, each proved against a pure function on the state: `Saved`, `Undone`, `Redone`, `ZoomedOut` and `Resized`.
- The properties of the history are proved about those functions.
- `Replay` runs a whole sequence of user actions from a fresh editor.

The drawing canvas is not modelled.
- A snapshot of the canvas is an opaque type parameter `S`.
- `SaveHistory` takes the serialised canvas as a parameter, or None when no canvas is mounted.
- `Undo` and `Redo` return the snapshot they hand back to the canvas to load.
- The zoom handlers take a flag saying whether a canvas is mounted.

An overlay does not change pixels in this model. An `Overlay.Image` keeps its width, its height and the list of drawing commands issued against it. The overlay methods append to that list in place and return the same image, as the Python functions do. The host is a `Host` value with four parts:
- its `os.name`;
- the working directory;
- the set of existing paths;
- the files the image library can decode, each with its size.

Zoom is kept in integer tenths: 10 means 1.0 and 1 means 0.1.

Two consequences of the font lookup are worth knowing:
- A bold request falls back to the regular system `arial.ttf`, so it can end up with the regular font (`Overlay.BoldCanResolveToRegular`).
- The FileNotFoundError names only the requested font file, not the paths probed.

## Model

| member | source | states |
|---|---|---|
| `CanvasEditor.Saved` | frontend/src/components/BannerCanvas.js:74-87 | Saving drops every snapshot after the cursor and appends the new one, which becomes current. On overflow only the oldest is evicted and the rest keep their order. The length is min(index + 2, 5), and the history stays well-formed. |
| `CanvasEditor.Undone` | frontend/src/components/BannerCanvas.js:89-94 | The entries never change. Undo is a no-op when the cursor is at 0 or -1; otherwise the cursor moves back exactly one. |
| `CanvasEditor.Redone` | frontend/src/components/BannerCanvas.js:96-101 | The entries never change. Redo is a no-op when the cursor is on the newest snapshot; otherwise the cursor moves forward exactly one. |
| `CanvasEditor.EmptyHistory` | frontend/src/components/BannerCanvas.js:13-14 | The editor starts with an empty history and cursor -1, which is well-formed. |
| `CanvasEditor.RedoAfterUndo` | frontend/src/components/BannerCanvas.js:89-101 | An undo that moves the cursor, followed by a redo, restores the history. |
| `CanvasEditor.UndoAfterRedo` | frontend/src/components/BannerCanvas.js:89-101 | A redo that moves the cursor, followed by an undo, restores the history. |
| `CanvasEditor.SaveDiscardsRedo` | frontend/src/components/BannerCanvas.js:78-86 | After a save, redo has nothing to restore: the undone snapshots are lost. |
| `CanvasEditor.SaveAfterUndoReplacesUndone` | frontend/src/components/BannerCanvas.js:78-94 | Save a, save b, undo, then save c: the history is [a, c] with c current. The undone b is lost. |
| `CanvasEditor.SaveBelowLimit` | frontend/src/components/BannerCanvas.js:79-86 | Below the limit, a save keeps every snapshot up to the cursor, appends the new one after it and moves the cursor onto it. |
| `CanvasEditor.SaveOnFullHistoryEvictsOldest` | frontend/src/components/BannerCanvas.js:81-83 | Saving onto a full history with the cursor at its end yields the old entries minus the first, plus the new snapshot. |
| `CanvasEditor.Step` | frontend/src/components/BannerCanvas.js:74-101 | Every save, undo or redo keeps the history well-formed: at most 5 entries, the cursor in [-1, length), and -1 exactly when empty. |
| `CanvasEditor.Replay` | frontend/src/components/BannerCanvas.js:13-14 | Every history reachable from a fresh editor by saves, undos and redos is well-formed. |
| `CanvasEditor.ReplayCursorInRange` | frontend/src/components/BannerCanvas.js:13-14 | From a fresh editor, the cursor lies in [0, length) exactly when some save has happened. Before any save the history is still empty with cursor -1. |
| `CanvasEditor.ZoomedOut` | frontend/src/components/BannerCanvas.js:152-159 | Zooming out never yields less than 0.1. Otherwise it lowers the zoom by exactly 0.1. |
| `CanvasEditor.ZoomOutUndoesZoomIn` | frontend/src/components/BannerCanvas.js:152-167 | From any zoom of at least 0.1, zooming in and then out returns to the same zoom. |
| `CanvasEditor.ResizeValue` | frontend/src/components/BannerCanvas.js:181-182 | The new dimension is always positive. A positive integer input is kept. A NaN or non-positive input becomes 100. |
| `CanvasEditor.Resized` | frontend/src/components/BannerCanvas.js:179-184 | Only the dimension named by the input changes, and it takes the value of the resize rule. |
| `CanvasEditor.ResizeKeepsPositive` | frontend/src/components/BannerCanvas.js:179-184 | A resize of a canvas with positive dimensions keeps both dimensions positive. |
| `CanvasEditor.LayerName` | frontend/src/components/BannerCanvas.js:117 | An image is named "Image Layer". Any other object is named by its text, or "Layer" when the text is empty or missing. |
| `CanvasEditor.LayerOf` | frontend/src/components/BannerCanvas.js:114-120 | The record of one object carries its index as id, its reference, its type and its name. It is active exactly when the object is the active object. |
| `CanvasEditor.Reverse` | frontend/src/components/BannerCanvas.js:121 | The reversal has the same length, and element k is the input's element length-1-k. |
| `CanvasEditor.LayersList` | frontend/src/components/BannerCanvas.js:113-122 | There is one row per canvas object, top-most first. Row k is the record of object length-1-k, whose id is that object's index in drawing order. |
| `CanvasEditor.LayerRowDescribesObject` | frontend/src/components/BannerCanvas.js:114-120 | Each row carries its object's index, reference, type and name. It is active exactly when that object is the active object. |
| `CanvasEditor.AtMostOneActiveLayer` | frontend/src/components/BannerCanvas.js:119 | When object identities are distinct, at most one row is marked active. |
| `CanvasEditor.BannerCanvas.constructor` | frontend/src/components/BannerCanvas.js:13-24 | The initial state is an empty history with cursor -1 and zoom 1.0. The canvas is 60% of the viewport's width and 80% of its height, rounded down. |
| `CanvasEditor.BannerCanvas.SaveHistory` | frontend/src/components/BannerCanvas.js:74-87 | Without a mounted canvas nothing changes. Otherwise the history becomes `Saved` of the old history and the snapshot. Zoom and size are untouched. |
| `CanvasEditor.BannerCanvas.Undo` | frontend/src/components/BannerCanvas.js:89-94 | The history becomes `Undone` of the old one. The method returns the snapshot at the new cursor, or None on a no-op. |
| `CanvasEditor.BannerCanvas.Redo` | frontend/src/components/BannerCanvas.js:96-101 | The history becomes `Redone` of the old one. The method returns the snapshot at the new cursor, or None on a no-op. |
| `CanvasEditor.BannerCanvas.ZoomOut` | frontend/src/components/BannerCanvas.js:152-159 | With a canvas mounted, the zoom becomes `ZoomedOut` of the old zoom. Without one it is a no-op. The zoom stays at 0.1 or more. |
| `CanvasEditor.BannerCanvas.ZoomIn` | frontend/src/components/BannerCanvas.js:161-167 | With a canvas mounted, the zoom rises by exactly 0.1. Without one it is a no-op. |
| `CanvasEditor.BannerCanvas.ResetZoom` | frontend/src/components/BannerCanvas.js:169-174 | With a canvas mounted, the zoom becomes 1.0. Without one it is a no-op. |
| `CanvasEditor.BannerCanvas.HandleResizeChange` | frontend/src/components/BannerCanvas.js:179-184 | The canvas size becomes `Resized` of the old size. History and zoom are untouched. |
| `Overlay.ShapeCommands` | backend/banner_generator/overlay.py:16-25 | A rectangle gives one outline with its top-left corner at the position and extents w and h. A circle gives one outline box centred on the position, 2*size[0] wide and high. Both use the given colour and width 3. Any other kind gives no command. |
| `Overlay.DrawShapeOnImage` | backend/banner_generator/overlay.py:6-25 | The method returns the same image, with the same dimensions and exactly the shape's commands appended. |
| `Overlay.CircleIgnoresSecondSize` | backend/banner_generator/overlay.py:21-24 | The second size component of a circle has no effect. |
| `Overlay.CircleBoxIsSquareAroundCentre` | backend/banner_generator/overlay.py:17-24 | A circle of radius r at (x, y) is drawn in the box of a rectangle at (x-r, y-r) of size (2r, 2r). |
| `Overlay.FontName` | backend/banner_generator/overlay.py:84 | The font is "arialbd.ttf" exactly when bold is requested, and "arial.ttf" exactly when it is not. |
| `Overlay.Separator` | backend/banner_generator/overlay.py:32-34 | `os.path.join` uses a single backslash on nt and a single slash everywhere else. |
| `Overlay.BundledFontPath` | backend/banner_generator/overlay.py:32-34 | The bundled font path starts with the working directory and ends with the requested font file name, with `backend/banner_generator/static/fonts` joined by the OS's separator in between. |
| `Overlay.SystemFontPath` | backend/banner_generator/overlay.py:41-46 | A system font exists only for "nt" and "posix": the Windows Arial on nt and the msttcorefonts Arial on posix. It is always an arial.ttf. |
| `Overlay.GetFontPath` | backend/banner_generator/overlay.py:26-52 | An existing bundled font is returned whatever the OS. Any returned path exists and is either the bundled font or the OS's system font. The call fails exactly when the bundled font is missing and the OS has no system font or that font is missing. The error is FileNotFoundError naming the requested font. |
| `Overlay.SystemFallbackIgnoresFont` | backend/banner_generator/overlay.py:41-49 | Once the bundled fonts are missing, the requested font does not change whether the lookup succeeds or which path it returns. Only the error message, which names the font, differs. |
| `Overlay.BoldCanResolveToRegular` | backend/banner_generator/overlay.py:41-49 | On a POSIX host with only the system Arial, a bold request resolves to the regular system font. |
| `Overlay.OverlayTextOnImage` | backend/banner_generator/overlay.py:54-107 | It succeeds exactly when the font for the bold flag resolves. It then appends one text command with that font path, the fill colour, and the outline width and colour. Otherwise it raises RuntimeError around FileNotFoundError and leaves the image unchanged. |
| `Overlay.LogoPaste` | backend/banner_generator/overlay.py:123-133 | A missing path gives FileNotFoundError. An existing file that does not decode gives an unidentified-image error. A paste happens exactly when the file exists and decodes, at the given position. The pasted size is the requested size if any, otherwise the logo's own. |
| `Overlay.ResizedLogoHasRequestedSize` | backend/banner_generator/overlay.py:129-133 | With a requested size, the pasted region has exactly that size, whatever the logo file's size. |
| `Overlay.OverlayLogoOnImage` | backend/banner_generator/overlay.py:110-138 | A missing logo fails before any paste and leaves the image unchanged. Every failure is a RuntimeError around its cause. On success exactly one paste is appended and the same image is returned. |

## Left out

- PNG encoding (`save_image_to_bytes`) is left out. The image library encodes; there is no codec in the repository to model.
- Rasterisation is left out: pixels, glyph shapes and alpha blending. The model records the commands and their geometry, not the pixels they produce.
- `Overlay.DrawShapeOnImage`: a box with negative extent may be rejected by the drawing library, and that failure is not modelled. Examples are a negative width or height, or a negative circle radius. For such inputs the model still appends the command.
- Text overlay failures other than font resolution are not modelled, because they happen inside the font and drawing library. Examples are a font file that is not valid TrueType and a font size the library rejects.
- Logo failures other than a missing file or an undecodable image are not modelled. One example is a resize the library rejects.
- Path normalisation by `os.path.abspath` is left out. The bundled font path is the working directory joined with the fixed relative path, using the OS's separator, and the working directory is taken to be absolute.
- The debugging `print` calls and the messages they print are left out.
- The text wrapped in a RuntimeError is left out. It is modelled as the operation's context plus the underlying error.
- The image generation pipeline (`backend/banner_generator/generate.py`) is not part of this model. It is a pretrained model loaded from outside.
- The HTTP routing in `backend/app.py` is not part of this model.
- The Fabric.js canvas is not modelled: serialisation, loading a snapshot, applying the zoom, reordering objects and exporting. Snapshots are opaque values.
- Event registration, the window resize listener, the paywall alerts and the HD export are left out.
- React's rendering and closure timing is left out. Handlers registered at canvas creation see stale `history` and `historyIndex` values. The model gives the intended sequential semantics instead: each handler sees the state the previous one left.
- `CanvasEditor.ZoomedOut`: zoom is exact integer tenths. It does not model the drift that repeated floating-point steps of 0.1 produce in the editor.
- `CanvasEditor.BannerCanvas.constructor`: the initial size is computed on integers. It does not model floating-point rounding of `innerWidth * 0.6` before the floor.
- `CanvasEditor.ResizeValue`: the input is already read as an optional integer. How `parseInt` reads a string is not modelled: leading whitespace, trailing junk and signs.
- Only the two inputs named "width" and "height" exist, so the input name is a two-valued `Dimension`. Any other name would add a new key to the size object.
- The Toolbar, the layers panel UI, App.js and the API client are not part of this model. They are UI rendering, Fabric calls and network fetches.
