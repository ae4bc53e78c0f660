/**
 * The clipboard: the frames last copied or cut and where they came from
 * ("source" or "edit").  Frames are values here, so storing and handing out
 * copies is what every assignment already does.
 */
module ClipboardModel {
  import opened Common
  import opened Keyframes

  const EditSource: string := "edit"

  class ClipboardManager {
    var frames: seq<Keyframe>
    var sourceType: Option<string>

    constructor()
      ensures frames == [] && sourceType == None
      ensures !HasData()
    {
      frames := [];
      sourceType := None;
    }

    /** Stores the frames and their source, "edit" unless told otherwise. */
    method SetClipboard(d: seq<Keyframe>, source: string := EditSource)
      modifies this
      ensures frames == d && sourceType == Some(source)
      ensures HasData() <==> d != []
    {
      frames := d;
      sourceType := Some(source);
    }

    /** True exactly when there are frames to paste. */
    predicate HasData()
      reads this
    {
      frames != []
    }
  }
}
