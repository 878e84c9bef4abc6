/**
 * The whiteboard's shared scene and its edit and sync rules: the committed
 * shapes, the images (whose boxes the pointer drags and resizes in place), the
 * pointer-gesture flags, and the peer channel reduced to an open flag and the
 * list of messages it has sent.
 */
module Whiteboard {
  import opened Geometry
  import opened Protocol

  datatype Option<T> = None | Some(value: T)

  /** The current peer channel: the remote identifier and whether it is open. */
  datatype Channel = Channel(peer: string, open: bool)

  /** Natural (decoded) size of a bitmap. */
  datatype Natural = Natural(width: real, height: real)

  predicate Decodable(n: Natural)
  {
    n.width > 0.0 && n.height > 0.0
  }

  /** An image on the canvas; a pointer drag or resize updates its box in place. */
  class ImageItem {
    var x: real
    var y: real
    var width: real
    var height: real
    /** Natural size of the decoded bitmap, fixed once loaded. */
    const naturalWidth: real
    const naturalHeight: real

    function NaturalSize(): (n: Natural)
    {
      Natural(naturalWidth, naturalHeight)
    }

    ghost predicate Valid()
    {
      Decodable(NaturalSize())
    }

    function Bounds(): (b: Box)
      reads this
    {
      Box(x, y, width, height)
    }

    constructor (box: Box, natural: Natural)
      requires Decodable(natural)
      ensures Valid() && Bounds() == box && NaturalSize() == natural
    {
      x, y, width, height := box.x, box.y, box.width, box.height;
      naturalWidth, naturalHeight := natural.width, natural.height;
    }
  }

  /** Colour an eraser stroke paints with. */
  const EraserColor: string := "#ffffff"

  class Scene {
    /** Committed shapes, in drawing order. */
    var drawings: seq<Message>
    /** Images, bottom to top. */
    var images: seq<ImageItem>
    var selectedImage: ImageItem?
    var isDrawing: bool
    var isDraggingImage: bool
    var isResizingImage: bool
    var startX: real
    var startY: real
    var dragOffsetX: real
    var dragOffsetY: real
    var currentTool: string
    var currentColor: string
    var currentSize: real
    /** The peer channel, once one was requested or accepted. */
    var conn: Option<Channel>
    /** Every message handed to the channel, oldest first. */
    var outbox: seq<Message>

    /**
     * Every image was decoded with a positive natural size and is listed once,
     * and an image is selected exactly while it is being dragged or resized.
     */
    ghost predicate Valid()
      reads this
    {
      && (forall i :: 0 <= i < |images| ==> images[i].Valid())
      && (forall i, j :: 0 <= i < j < |images| ==> images[i] != images[j])
      && (selectedImage != null ==> selectedImage.Valid())
      && ((selectedImage != null) <==> (isDraggingImage || isResizingImage))
    }

    /** The images' boxes, bottom to top. */
    function Boxes(): (bs: seq<Box>)
      reads this, images
      ensures |bs| == |images|
      ensures forall i :: 0 <= i < |images| ==> bs[i] == images[i].Bounds()
    {
      seq(|images|, i reads this, images requires 0 <= i < |images| => images[i].Bounds())
    }

    /** The send gate: a channel exists and is open. */
    predicate CanSend()
      reads this
    {
      conn.Some? && conn.value.open
    }

    /** The freehand sample a pointer move sends: an eraser paints white at twice the size. */
    function StrokeSample(x: real, y: real): (m: Message)
      reads this
    {
      Message("draw", Point(x, y,
        if currentTool == "eraser" then EraserColor else currentColor,
        if currentTool == "eraser" then currentSize * 2.0 else currentSize))
    }

    /** The state the page starts in. */
    constructor ()
      ensures Valid()
      ensures drawings == [] && images == [] && selectedImage == null
      ensures !isDrawing && !isDraggingImage && !isResizingImage
      ensures dragOffsetX == 0.0 && dragOffsetY == 0.0
      ensures currentTool == "pencil" && currentColor == "#000000" && currentSize == 5.0
      ensures conn == None && outbox == []
    {
      drawings, images, selectedImage := [], [], null;
      isDrawing, isDraggingImage, isResizingImage := false, false, false;
      startX, startY, dragOffsetX, dragOffsetY := 0.0, 0.0, 0.0, 0.0;
      currentTool, currentColor, currentSize := "pencil", "#000000", 5.0;
      conn, outbox := None, [];
    }

    /** Hands a message to the channel when it exists and is open; otherwise it is lost. */
    method SendData(message: Message)
      modifies this`outbox
      ensures CanSend() ==> outbox == old(outbox) + [message]
      ensures !CanSend() ==> outbox == old(outbox)
    {
      if conn.Some? && conn.value.open {
        outbox := outbox + [message];
      }
    }

    /** Empties the scene and tells the peer to do the same. */
    method ClearCanvas()
      requires Valid()
      modifies this`drawings, this`images, this`outbox
      ensures Valid()
      ensures drawings == [] && images == []
      ensures outbox == old(outbox) + (if CanSend() then [ClearMessage] else [])
    {
      drawings := [];
      images := [];
      SendData(ClearMessage);
    }

    /** Appends a new image on top of the others. */
    method PushImage(box: Box, natural: Natural) returns (item: ImageItem)
      requires Valid() && Decodable(natural)
      modifies this`images
      ensures Valid() && fresh(item) && item.NaturalSize() == natural
      ensures images == old(images) + [item]
      ensures Boxes() == old(Boxes()) + [box]
    {
      item := new ImageItem(box, natural);
      images := images + [item];
    }

    /**
     * A received image is appended once its bitmap has decoded; `decoded` is
     * that outcome (None when the payload does not decode, which is also what
     * happens to a message without a bitmap).
     */
    method AddRemoteImage(message: Message, decoded: Option<Natural>)
      requires Valid()
      requires decoded.Some? ==> Decodable(decoded.value)
      modifies this`images
      ensures Valid()
      ensures message.fields.Picture? && decoded.Some? ==>
        var p := message.fields;
        |images| == |old(images)| + 1 && images[..|old(images)|] == old(images) &&
        fresh(images[|images| - 1]) && images[|images| - 1].NaturalSize() == decoded.value &&
        Boxes() == old(Boxes()) + [Box(p.x, p.y, p.width, p.height)]
      ensures !(message.fields.Picture? && decoded.Some?) ==> images == old(images)
    {
      if message.fields.Picture? && decoded.Some? {
        var p := message.fields;
        var item := PushImage(Box(p.x, p.y, p.width, p.height), decoded.value);
      }
    }

    /** Applies a message received from the peer, chosen by its `type`. */
    method HandleRemoteAction(message: Message, decoded: Option<Natural>)
      requires Valid()
      requires decoded.Some? ==> Decodable(decoded.value)
      modifies this`drawings, this`images, this`outbox
      ensures Valid()
      ensures Route(message.kind) == AppendShape ==>
        drawings == old(drawings) + [message] && images == old(images) && outbox == old(outbox)
      ensures Route(message.kind) == ClearScene ==>
        drawings == [] && images == [] &&
        outbox == old(outbox) + (if CanSend() then [ClearMessage] else [])
      ensures Route(message.kind) == AddImage ==>
        drawings == old(drawings) && outbox == old(outbox) &&
        (message.fields.Picture? && decoded.Some? ==>
           |images| == |old(images)| + 1 && images[..|old(images)|] == old(images) &&
           fresh(images[|images| - 1]) && images[|images| - 1].NaturalSize() == decoded.value &&
           Boxes() == old(Boxes()) + [Box(message.fields.x, message.fields.y, message.fields.width, message.fields.height)]) &&
        (!(message.fields.Picture? && decoded.Some?) ==> images == old(images))
      ensures Route(message.kind) in {RenderPoint, Ignore} ==>
        drawings == old(drawings) && images == old(images) && outbox == old(outbox)
    {
      match message.kind
      case "draw" =>
        // Rendering only: a line segment to the received point.
      case "shape" =>
        drawings := drawings + [message];
      case "clear" =>
        ClearCanvas();
      case "image" =>
        AddRemoteImage(message, decoded);
      case _ =>
    }

    /** The tool buttons: the state part of selecting a tool. */
    method SetTool(tool: string)
      modifies this`currentTool
      ensures currentTool == tool
    {
      currentTool := tool;
    }

    /** The colour picker. */
    method SetColor(color: string)
      modifies this`currentColor
      ensures currentColor == color
    {
      currentColor := color;
    }

    /** The size picker. */
    method SetSize(size: real)
      modifies this`currentSize
      ensures currentSize == size
    {
      currentSize := size;
    }

    /**
     * Pointer down at canvas point (x, y): the topmost image whose resize
     * handle or body contains the point is selected for resizing or dragging;
     * if there is none a freehand stroke or shape starts at the point.
     */
    method StartDrawing(x: real, y: real)
      requires Valid()
      modifies this`isDrawing, this`isDraggingImage, this`isResizingImage, this`selectedImage
      modifies this`startX, this`startY, this`dragOffsetX, this`dragOffsetY
      ensures Valid()
      ensures match HitTest(old(Boxes()), x, y)
        case Resize(i) =>
          && i < |images| && isResizingImage && selectedImage == images[i]
          && startX == x && startY == y
          && isDrawing == old(isDrawing) && isDraggingImage == old(isDraggingImage)
          && dragOffsetX == old(dragOffsetX) && dragOffsetY == old(dragOffsetY)
        case Drag(i) =>
          && i < |images| && isDraggingImage && selectedImage == images[i]
          && dragOffsetX == x - images[i].x && dragOffsetY == y - images[i].y
          && isDrawing == old(isDrawing) && isResizingImage == old(isResizingImage)
          && startX == old(startX) && startY == old(startY)
        case Miss =>
          && isDrawing && startX == x && startY == y
          && selectedImage == old(selectedImage)
          && isDraggingImage == old(isDraggingImage) && isResizingImage == old(isResizingImage)
          && dragOffsetX == old(dragOffsetX) && dragOffsetY == old(dragOffsetY)
    {
      ghost var boxes := Boxes();
      var i: int := |images| - 1;
      assert boxes[..i + 1] == boxes;
      while i >= 0
        invariant -1 <= i < |images|
        invariant boxes == Boxes()
        invariant HitTest(boxes, x, y) == HitTest(boxes[..i + 1], x, y)
      {
        var img := images[i];
        assert boxes[..i + 1][..i] == boxes[..i];
        if Abs(x - (img.x + img.width)) < HandleTolerance && Abs(y - (img.y + img.height)) < HandleTolerance {
          isResizingImage := true;
          selectedImage := img;
          startX := x;
          startY := y;
          return;
        }
        if x >= img.x && x <= img.x + img.width && y >= img.y && y <= img.y + img.height {
          isDraggingImage := true;
          selectedImage := img;
          dragOffsetX := x - img.x;
          dragOffsetY := y - img.y;
          return;
        }
        i := i - 1;
      }
      assert boxes[..0] == [];
      isDrawing := true;
      startX := x;
      startY := y;
    }

    /**
     * Pointer move to (x, y): moves or resizes the selected image in place, or,
     * while a freehand stroke is under way, sends the sample to the peer.
     */
    method Draw(x: real, y: real, shift: bool)
      requires Valid()
      modifies this`outbox, selectedImage
      ensures Valid()
      ensures old(isDraggingImage) && selectedImage != null ==>
        selectedImage.Bounds() == Dragged(old(selectedImage.Bounds()), x, y, dragOffsetX, dragOffsetY) &&
        outbox == old(outbox)
      ensures !old(isDraggingImage) && old(isResizingImage) && selectedImage != null ==>
        selectedImage.Bounds() ==
          Resized(old(selectedImage.Bounds()), selectedImage.naturalWidth, selectedImage.naturalHeight, x, y, shift) &&
        outbox == old(outbox)
      ensures !old(isDraggingImage) && !old(isResizingImage) ==>
        outbox == old(outbox) +
          (if isDrawing && currentTool in {"pencil", "eraser"} && CanSend() then [StrokeSample(x, y)] else [])
      ensures forall i :: 0 <= i < |images| && images[i] != selectedImage ==> images[i].Bounds() == old(images[i].Bounds())
    {
      if isDraggingImage && selectedImage != null {
        selectedImage.x := x - dragOffsetX;
        selectedImage.y := y - dragOffsetY;
        return;
      }
      if isResizingImage && selectedImage != null {
        var newWidth := Max(MinImageSide, x - selectedImage.x);
        var newHeight := Max(MinImageSide, y - selectedImage.y);
        if shift {
          var ratio := selectedImage.naturalWidth / selectedImage.naturalHeight;
          selectedImage.width := newWidth;
          selectedImage.height := newWidth / ratio;
        } else {
          selectedImage.width := newWidth;
          selectedImage.height := newHeight;
        }
        return;
      }
      if !isDrawing {
        return;
      }
      if currentTool == "pencil" || currentTool == "eraser" {
        SendData(StrokeSample(x, y));
      }
      // A shape tool only redraws its preview.
    }

    /**
     * Pointer up (or out) at (endX, endY): a shape gesture commits one shape
     * record, kept locally and sent to the peer; every gesture flag is reset.
     */
    method StopDrawing(endX: real, endY: real)
      requires Valid()
      modifies this`drawings, this`outbox
      modifies this`isDrawing, this`isDraggingImage, this`isResizingImage, this`selectedImage
      ensures Valid()
      ensures !isDrawing && !isDraggingImage && !isResizingImage && selectedImage == null
      ensures old(isDrawing) && currentTool in ShapeTools ==>
        var shape := ShapeRecord(currentTool, startX, startY, endX, endY, currentColor, currentSize);
        drawings == old(drawings) + [shape] &&
        outbox == old(outbox) + (if CanSend() then [shape] else [])
      ensures !(old(isDrawing) && currentTool in ShapeTools) ==>
        drawings == old(drawings) && outbox == old(outbox)
    {
      if isDrawing && currentTool in ShapeTools {
        var newShape := Message(currentTool, Segment(startX, startY, endX, endY, currentColor, currentSize));
        drawings := drawings + [newShape];
        // {type: 'shape', ...newShape}: the record's own type overrides 'shape'.
        SendData(newShape);
      }
      isDrawing := false;
      isDraggingImage := false;
      isResizingImage := false;
      selectedImage := null;
    }

    /**
     * A chosen file has been decoded: the image is placed at (50, 50) with the
     * upload size, appended on top, and sent to the peer.
     */
    method UploadImage(data: string, natural: Natural)
      requires Valid() && Decodable(natural)
      modifies this`images, this`outbox
      ensures Valid()
      ensures |images| == |old(images)| + 1 && images[..|old(images)|] == old(images)
      ensures fresh(images[|images| - 1]) && images[|images| - 1].NaturalSize() == natural
      ensures var b := images[|images| - 1].Bounds();
        Boxes() == old(Boxes()) + [b] &&
        b.x == UploadX && b.y == UploadY && UploadSize(natural.width, natural.height, b.width, b.height) &&
        outbox == old(outbox) + (if CanSend() then [Message("image", Picture(data, b.x, b.y, b.width, b.height))] else [])
    {
      var width, height := FitUpload(natural.width, natural.height);
      var newImage := PushImage(Box(UploadX, UploadY, width, height), natural);
      SendData(Message("image", Picture(data, newImage.x, newImage.y, newImage.width, newImage.height)));
    }

    /**
     * The connect button: an identifier that is empty once trimmed is ignored;
     * otherwise a channel to it replaces the current one, not yet open.
     */
    method ConnectToPeer(input: string)
      modifies this`conn
      ensures Trim(input) == [] ==> conn == old(conn)
      ensures Trim(input) != [] ==> conn == Some(Channel(Trim(input), false))
    {
      var peerId := Trim(input);
      if peerId == [] {
        return;
      }
      conn := Some(Channel(peerId, false));
    }

    /** A peer connected to us: its channel replaces the current one, not yet open. */
    method AcceptConnection(remoteId: string)
      modifies this`conn
      ensures conn == Some(Channel(remoteId, false))
    {
      conn := Some(Channel(remoteId, false));
    }

    /** The transport signals that the current channel opened or closed. */
    method SetChannelOpen(open: bool)
      modifies this`conn
      ensures old(conn).Some? ==> conn == Some(old(conn).value.(open := open))
      ensures old(conn).None? ==> conn == None
    {
      if conn.Some? {
        conn := Some(conn.value.(open := open));
      }
    }
  }

  /**
   * Two connected peers: the shape `sender` commits reaches `receiver`, whose
   * drawings stay as they were, since the message's type is the tool name.
   */
  method DeliverShape(sender: Scene, receiver: Scene, endX: real, endY: real)
    requires sender.Valid() && receiver.Valid() && sender != receiver
    requires sender.isDrawing && sender.currentTool in ShapeTools && sender.CanSend()
    modifies sender, receiver
    ensures |sender.drawings| == |old(sender.drawings)| + 1
    ensures receiver.drawings == old(receiver.drawings) && receiver.images == old(receiver.images)
  {
    sender.StopDrawing(endX, endY);
    var message := sender.outbox[|sender.outbox| - 1];
    ShapeRecordIgnored(sender.currentTool, sender.startX, sender.startY, endX, endY, sender.currentColor, sender.currentSize);
    receiver.HandleRemoteAction(message, None);
  }

  /**
   * Two connected peers: a clear from `a` empties `b`, and `b` sends a clear
   * straight back, which would in turn make `a` send another.
   */
  method DeliverClear(a: Scene, b: Scene)
    requires a.Valid() && b.Valid() && a != b && a.CanSend() && b.CanSend()
    modifies a, b
    ensures a.drawings == [] && a.images == [] && b.drawings == [] && b.images == []
    ensures a.outbox == old(a.outbox) + [ClearMessage]
    ensures b.outbox == old(b.outbox) + [ClearMessage]
  {
    a.ClearCanvas();
    var message := a.outbox[|a.outbox| - 1];
    b.HandleRemoteAction(message, None);
  }
}
