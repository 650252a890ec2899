/** The backend's configuration constants (backend/app/config.py) and the model catalogue. */
module Settings {

  /** One entry of `available_models`. */
  datatype ModelSpec = ModelSpec(name: string, size: string, description: string, filename: string)

  const MaxFileSize: nat := 50 * 1024 * 1024
  const SupportedImageTypes: seq<string> := ["image/jpeg", "image/png", "image/jpg"]
  const SupportedVideoTypes: seq<string> := ["video/mp4", "video/avi", "video/mov"]

  /** `available_models`, in the dictionary's insertion order. */
  const AvailableModels: seq<(string, ModelSpec)> := [
    ("yolov8n", ModelSpec("YOLOv8 Nano", "3.2MB", "Fastest, least accurate - ideal for edge devices", "yolov8n.pt")),
    ("yolov8s", ModelSpec("YOLOv8 Small", "11.2MB", "Good balance between speed and accuracy", "yolov8s.pt")),
    ("yolov8m", ModelSpec("YOLOv8 Medium", "25.9MB", "Higher accuracy with moderate speed", "yolov8m.pt")),
    ("yolov8l", ModelSpec("YOLOv8 Large", "43.7MB", "Maximum accuracy, slower processing", "yolov8l.pt"))
  ]

  const MaxImageWidth: nat := 1920
  const MaxImageHeight: nat := 1080
  /** `detection_confidence_threshold` (0.25). */
  const DetectionConfidenceThreshold: real := 0.25
  const MaxVideoDuration: nat := 300
  const ModelCacheDir: string := "./models"

  /** The ids of `available_models`. */
  function ModelIds(): (ids: set<string>)
    ensures forall i :: 0 <= i < |AvailableModels| ==> AvailableModels[i].0 in ids
    ensures forall id :: id in ids ==> exists i :: 0 <= i < |AvailableModels| && AvailableModels[i].0 == id
  {
    var ids := {"yolov8n", "yolov8s", "yolov8m", "yolov8l"};
    assert AvailableModels[0].0 == "yolov8n" && AvailableModels[1].0 == "yolov8s";
    assert AvailableModels[2].0 == "yolov8m" && AvailableModels[3].0 == "yolov8l";
    ids
  }

  predicate IsAvailable(id: string)
  {
    id in ModelIds()
  }

  /** `available_models[id]` as a map. */
  function Catalogue(): map<string, ModelSpec>
  {
    map i | 0 <= i < |AvailableModels| :: AvailableModels[i].0 := AvailableModels[i].1
  }

  lemma CatalogueKeys()
    ensures Catalogue().Keys == ModelIds()
  {
  }
}
