/** The shapes exchanged between the browser and the detection API, as frontend/src/types/index.ts
    declares them. Numbers that are floats in the source are exact `real`s here; they are only
    stored and compared, never formatted. */
module Wire {
  import opened Common

  /** `[x1, y1, x2, y2]` in image coordinates. */
  datatype BBox = BBox(x1: real, y1: real, x2: real, y2: real)

  /** One detected object (`class` is a reserved word in Dafny, hence `cls`). */
  datatype Detection = Detection(cls: string, confidence: real, bbox: BBox)

  datatype ModelInfo = ModelInfo(id: string, name: string, size: string, description: string, filename: string)

  /** The `DetectionResult` interface: the body of a successful detection response as the
      frontend reads it. Optional fields are `Option`s. */
  datatype DetectionResult = DetectionResult(
    success: bool,
    detections: seq<Detection>,
    imageUrl: Option<string>,
    videoUrl: Option<string>,
    modelUsed: string,
    processingTime: real)

  /** A browser `File` chosen by the user: name, size in bytes and MIME type (`file.type`,
      the empty string when the browser does not know it). */
  datatype BrowserFile = BrowserFile(name: string, size: nat, mimeType: string)
}
