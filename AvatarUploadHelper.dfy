/** The avatar upload helper's arithmetic and permission logic: the centred
    square a picture is cropped to, and the runtime permissions the helper
    needs on each platform version. */
module Avatar {
  import opened Kotlin

  /** A rectangle of a bitmap: its top-left corner and its size. */
  datatype Rect = Rect(x: int32, y: int32, width: int32, height: int32)

  /** What `cropToSquare` asks for: the square cut out of the bitmap, and the
      size it is then scaled to. */
  datatype Crop = Crop(square: Rect, outputWidth: int32, outputHeight: int32)

  /** `cropToSquare(bitmap, size)` for a `width` by `height` bitmap (a bitmap
      is at least one pixel each way): the largest square, centred, rounding
      the margin toward the top and left. */
  function CropToSquare(width: int32, height: int32, size: int32): (c: Crop)
    requires width >= 1 && height >= 1
    ensures c.square.width == c.square.height
    ensures c.square.width <= width && c.square.width <= height
    ensures c.square.width == width || c.square.width == height
    ensures c.square.x >= 0 && c.square.y >= 0
    ensures c.square.x == 0 || c.square.y == 0
    ensures c.square.x as int + c.square.width as int <= width as int
    ensures c.square.y as int + c.square.height as int <= height as int
    ensures 0 <= (width as int - c.square.width as int) - 2 * c.square.x as int <= 1
    ensures 0 <= (height as int - c.square.height as int) - 2 * c.square.y as int <= 1
    ensures c.outputWidth == size && c.outputHeight == size
  {
    var minSize := if width <= height then width else height;
    var x := (width - minSize) / 2;
    var y := (height - minSize) / 2;
    Crop(Rect(x, y, minSize, minSize), size, size)
  }

  /** The runtime permissions the helper deals with. */
  datatype Permission = Camera | ReadMediaImages | ReadExternalStorage | WriteExternalStorage

  /** The platform version from which images are read with
      `READ_MEDIA_IMAGES` (Android 13, `TIRAMISU`). */
  const Tiramisu: int32 := 33

  /** `REQUIRED_PERMISSIONS` on platform version `sdkInt`. */
  function RequiredPermissions(sdkInt: int32): (ps: seq<Permission>)
    ensures Camera in ps
    ensures sdkInt >= Tiramisu ==> (set p | p in ps) == {Camera, ReadMediaImages}
    ensures sdkInt < Tiramisu ==> (set p | p in ps) == {Camera, ReadExternalStorage, WriteExternalStorage}
    ensures forall i, j :: 0 <= i < j < |ps| ==> ps[i] != ps[j]
  {
    if sdkInt >= Tiramisu then [Camera, ReadMediaImages]
    else [Camera, ReadExternalStorage, WriteExternalStorage]
  }

  /** `all` over a permission list, `granted` being the permissions the
      system reports as granted. */
  function AllGranted(ps: seq<Permission>, granted: set<Permission>): (ok: bool)
    ensures ok <==> forall i :: 0 <= i < |ps| ==> ps[i] in granted
  {
    if ps == [] then true
    else ps[0] in granted && AllGranted(ps[1..], granted)
  }

  /** `checkPermissions()`: every required permission is granted. */
  function CheckPermissions(sdkInt: int32, granted: set<Permission>): (ok: bool)
    ensures ok <==> forall p :: p in RequiredPermissions(sdkInt) ==> p in granted
  {
    AllGranted(RequiredPermissions(sdkInt), granted)
  }

  /** Without the camera nothing passes; from `TIRAMISU` on, the storage
      permissions play no part, and before it `READ_MEDIA_IMAGES` plays none. */
  lemma CheckPermissionsBySdk(sdkInt: int32, granted: set<Permission>)
    ensures CheckPermissions(sdkInt, granted) ==> Camera in granted
    ensures sdkInt >= Tiramisu ==>
      (CheckPermissions(sdkInt, granted) <==> Camera in granted && ReadMediaImages in granted)
    ensures sdkInt < Tiramisu ==>
      (CheckPermissions(sdkInt, granted) <==>
         Camera in granted && ReadExternalStorage in granted && WriteExternalStorage in granted)
  {
    var ps := RequiredPermissions(sdkInt);
    if sdkInt >= Tiramisu {
      assert ps[0] == Camera && ps[1] == ReadMediaImages;
    } else {
      assert ps[0] == Camera && ps[1] == ReadExternalStorage && ps[2] == WriteExternalStorage;
    }
  }
}
