/** config/constants.js: where temporary audio lives and the stitched file's
    base name. */
module Constants {

  const AudioFileDir := "/tmp"

  const StitchedFile := "stitched_audio"
}
