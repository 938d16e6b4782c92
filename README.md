# Colored point-cloud export, modelled in Dafny

This project models the point-cloud export example of the nuScenes devkit:
`export_scene_pointcloud` and `pointcloud_color_from_image` in
`python-sdk/examples/export_pointclouds_as_obj.py`. For each frame of a
scene, the exporter loads the frame's point cloud (lidar or radar). It colors
the points from the six cameras, drops the points that are too close to the
ego vehicle or too far from it, moves the rest into the global frame, and
writes one vertex line per colored point to an OBJ file. It then follows the
frame's `next` link.

The modules follow the program's structure:

- `Wrappers`: `Option` and `Result`.
- `Masks`: boolean masks used the way numpy uses them.
  - `Select` is `a[:, mask]` and `Scatter` is `a[:, mask] = values`.
  - `Count` and `Rank` count the selected columns.
  - There are lemmas about composing selections, a sequence loop for
    selection and an in-place array method for scatter.
- `Geometry`: points, 3×3 matrices and poses.
  - The forward step is rotate then translate; the backward step is
    translate by the negation, then rotate by the transpose.
  - Backward undoes forward for an orthonormal rotation.
- `Clouds`: the point buffer, a class over an `array`.
  - `Rotate` and `Translate` update it in place.
  - `Filter` replaces it by its kept columns (`pc.points = pc.points[:, keep]`).
- `Images`: decoded RGB images, numpy's half-to-even rounding, and the pixel
  a projected point is read from.
- `Records`: the record store as finite maps (scenes, samples, sample data,
  calibrations, ego poses, point-cloud files and image files), plus the
  chains of `next` links.
- `ColorSampler`: `pointcloud_color_from_image`.
  - The lookups and loads.
  - The four frame steps, done in place.
  - The mask, built by five successive narrowings.
  - The selection of the visible columns and the sampling loop.
- `FrameExport`: one iteration of the export loop.
  - The coloring buffer starts at the sentinel −1.
  - The six cameras merge into it in their fixed order.
  - The move into the ego frame, then the distance filter applied to points
    and colors alike.
  - The move into the global frame, then the write loop that skips points
    without a color.
- `SceneExport`: the channel check, the lookups that find the scene's first
  record, and the `while has_more_frames` loop.

Each imperative operation is a method. Its `ensures` ties its result or new
state to a specification function, and the lemmas prove what the exporter
promises about those functions:
- the mask is exactly the visibility test;
- every pixel read stays inside the image;
- the last camera that sees a point gives it its color;
- the distance filter keeps exactly the points at distance [min, max];
- a point is written exactly when it passes the filter and some camera saw it;
- the loop walks the complete `next` chain and counts one frame per record,
  and a dangling link fails the export.

Failures are values. A missing record, a missing key in a sample's `data`
and a missing file each end the export with an `Error`, like the exception
the source raises. The output file is `None` when the export fails before
the file is opened. Otherwise it holds every line written up to the end or
up to the failure.

## Model

The lemmas below are about reference functions that define the modelled
lines directly; they carry no contract of their own and so have no row:
`Geometry.ToCamera` (the four frame steps, lines 110-129),
`ColorSampler.Visible` (the mask test, lines 139-144),
`FrameExport.WithinRange` (the distance test, lines 68-69),
`FrameExport.Emit` (the write loop, lines 81-86),
`FrameExport.FrameLines` (one frame after the merge, lines 61-86),
`SceneExport.ChainLines` (the lines of a run of frames, lines 47-92), and
`Records.IsChain`, `Records.IsRun` and `Records.IsDanglingRun` (chains of
`next` links, lines 88-92).

| member | source | states |
|---|---|---|
| `Masks.Select` | python-sdk/examples/export_pointclouds_as_obj.py:145 | `a[:, mask]` has one column per selected point; its meaning is given by the lemmas below |
| `Masks.Scatter` | python-sdk/examples/export_pointclouds_as_obj.py:59 | `a[:, mask] = values` keeps one column per point; its meaning is given by `Masks.ScatterAt` |
| `Masks.RankOrder` | python-sdk/examples/export_pointclouds_as_obj.py:145 | selecting by a mask keeps the selected columns in their original order: an earlier selected column has a smaller rank |
| `Masks.SelectAt` | python-sdk/examples/export_pointclouds_as_obj.py:145 | the selected column at a point's rank is that point's column |
| `Masks.SelectAtAll` | python-sdk/examples/export_pointclouds_as_obj.py:145-152 | the same for every selected point at once, as the sampling loop uses it |
| `Masks.SelectFrom` | python-sdk/examples/export_pointclouds_as_obj.py:145 | every column of a selection comes from a selected point, the one whose rank is the column's index |
| `Masks.SelectAll` | python-sdk/examples/export_pointclouds_as_obj.py:145-152 | a property of every selected column holds of every column of the selection |
| `Masks.SelectZip` | python-sdk/examples/export_pointclouds_as_obj.py:70-71 | filtering points and colors by one mask keeps each point paired with its own color |
| `Masks.SelectMap` | python-sdk/examples/export_pointclouds_as_obj.py:70-82 | filtering and then testing each column is testing each column and then filtering |
| `Masks.SelectSelect` | python-sdk/examples/export_pointclouds_as_obj.py:69-82 | filtering by the distance mask and then by the color test selects the columns where both hold |
| `Masks.ScatterAt` | python-sdk/examples/export_pointclouds_as_obj.py:59 | `coloring[:, mask] = values` sets the point of rank k among the masked points to values[k] and leaves every unmasked point unchanged |
| `Masks.SelectMasked` | python-sdk/examples/export_pointclouds_as_obj.py:145 | the selection loop returns exactly the masked columns in order |
| `Masks.ScatterInPlace` | python-sdk/examples/export_pointclouds_as_obj.py:59 | the in-place assignment writes the k-th value into the k-th masked position and nothing else |
| `Geometry.BackwardUndoesForward` | python-sdk/examples/export_pointclouds_as_obj.py:110-129 | for an orthonormal rotation, translating by −t and then rotating by Rᵀ inverts rotating by R and then translating by t |
| `Geometry.ChainRoundTrip` | python-sdk/examples/export_pointclouds_as_obj.py:110-129 | when the camera's calibration and ego pose are the point sensor's, the four frame steps return every point to where it was |
| `Clouds.SelectForwardAll` | python-sdk/examples/export_pointclouds_as_obj.py:70-78 | moving the kept points into the global frame is the same as moving all points and then keeping them |
| `Clouds.PointCloud.constructor` | python-sdk/examples/export_pointclouds_as_obj.py:52 | a fresh buffer holding the loaded cloud |
| `Clouds.PointCloud.Rotate` | python-sdk/examples/export_pointclouds_as_obj.py:64 | every point rotated in place |
| `Clouds.PointCloud.Translate` | python-sdk/examples/export_pointclouds_as_obj.py:65 | every point shifted in place |
| `Clouds.PointCloud.Filter` | python-sdk/examples/export_pointclouds_as_obj.py:70 | the buffer replaced by a fresh one holding the kept points in order |
| `Images.Round` | python-sdk/examples/export_pointclouds_as_obj.py:151 | the nearest integer, within one half, and the even one on a tie |
| `Images.PixelIndex` | python-sdk/examples/export_pointclouds_as_obj.py:141-152 | a point strictly inside the one-pixel margin rounds to a column and row inside the image |
| `Images.PixelAt` | python-sdk/examples/export_pointclouds_as_obj.py:152 | the pixel read at the rounded (row, column) is a genuine 8-bit RGB triple |
| `Records.ChainEnds` | python-sdk/examples/export_pointclouds_as_obj.py:88-92 | a complete chain of n records ends within n visits from its start |
| `Records.DanglingRunEnds` | python-sdk/examples/export_pointclouds_as_obj.py:88-89 | a run of n records whose last link dangles ends within n + 1 visits, the last one at the missing token |
| `Records.ChainUnique` | python-sdk/examples/export_pointclouds_as_obj.py:88-92 | the `next` links determine the chain: two complete chains from one record are equal |
| `Records.ChainFollowsRun` | python-sdk/examples/export_pointclouds_as_obj.py:88-89 | a complete chain from the start of a run of linked records runs through that run and past its last record |
| `Records.DanglingHasNoChain` | python-sdk/examples/export_pointclouds_as_obj.py:88-89 | no complete chain starts where the links run into a token that has no record |
| `ColorSampler.CameraCloudAt` | python-sdk/examples/export_pointclouds_as_obj.py:110-129 | the four in-place steps applied to the whole cloud move each point along sensor → ego → global → ego → camera |
| `ColorSampler.CameraCloudRoundTrip` | python-sdk/examples/export_pointclouds_as_obj.py:110-129 | when the camera shares the point sensor's calibration and ego pose, the four steps return the whole cloud unchanged |
| `ColorSampler.Picture` | python-sdk/examples/export_pointclouds_as_obj.py:133-154 | one mask entry per point and one color per masked point |
| `ColorSampler.PictureProperties` | python-sdk/examples/export_pointclouds_as_obj.py:133-154 | the mask is true exactly at the points with depth > 0 that project strictly inside the margin; the color at a masked point's rank is the pixel nearest to its projection; every color is an 8-bit pixel |
| `ColorSampler.ColorSpec` | python-sdk/examples/export_pointclouds_as_obj.py:104-154 | on success the mask has one entry per point of the point sensor's cloud, there is one color per masked point, every color is a pixel, and no failure is a channel error |
| `ColorSampler.Narrow` | python-sdk/examples/export_pointclouds_as_obj.py:140 | `mask = np.logical_and(mask, cond)` in place |
| `ColorSampler.VisibilityMask` | python-sdk/examples/export_pointclouds_as_obj.py:139-144 | the five narrowings of an all-true mask give a mask true exactly at the visible points |
| `ColorSampler.SamplePixels` | python-sdk/examples/export_pointclouds_as_obj.py:148-153 | column k of the coloring is the pixel nearest to the k-th surviving point, and no read leaves the image |
| `ColorSampler.MoveToCamera` | python-sdk/examples/export_pointclouds_as_obj.py:112-129 | the eight in-place rotations and translations compute the camera-frame cloud |
| `ColorSampler.TakePicture` | python-sdk/examples/export_pointclouds_as_obj.py:133-154 | depths, projection, mask, selection and sampling compute the picture |
| `ColorSampler.ColorFromImage` | python-sdk/examples/export_pointclouds_as_obj.py:104-154 | `pointcloud_color_from_image` computes `ColorSpec`, the failures included |
| `FrameExport.Unsets` | python-sdk/examples/export_pointclouds_as_obj.py:55 | one sentinel entry per point |
| `FrameExport.Merge` | python-sdk/examples/export_pointclouds_as_obj.py:55-59 | the merged buffer has one entry per point |
| `FrameExport.LastCover` | python-sdk/examples/export_pointclouds_as_obj.py:31-32 | the last camera in merge order whose mask covers the point, or none when no camera covers it |
| `FrameExport.LastWriterWins` | python-sdk/examples/export_pointclouds_as_obj.py:55-59 | after the merge a point holds the color sampled by the last camera that sees it, or its initial entry when none does |
| `FrameExport.MergedEntry` | python-sdk/examples/export_pointclouds_as_obj.py:55-59 | a merged entry has a color exactly when some camera sees the point; it is then a pixel, and otherwise it is still the all −1 sentinel |
| `FrameExport.ColoredIffSeen` | python-sdk/examples/export_pointclouds_as_obj.py:55-82 | the points that pass the emission test are exactly the points some camera saw |
| `FrameExport.WithinRangeIsDistance` | python-sdk/examples/export_pointclouds_as_obj.py:68-69 | the squared test keeps a point exactly when min ≤ distance ≤ max, both ends included |
| `FrameExport.KeepMask` | python-sdk/examples/export_pointclouds_as_obj.py:69 | one keep entry per point |
| `FrameExport.EmitIsSelect` | python-sdk/examples/export_pointclouds_as_obj.py:81-86 | the write loop emits, in point order, the vertex lines of exactly the points with no −1 channel |
| `FrameExport.EmitNormalized` | python-sdk/examples/export_pointclouds_as_obj.py:86 | with pixel colors, every emitted line has its channels divided by 255 into [0, 1] |
| `FrameExport.FrameLinesSelect` | python-sdk/examples/export_pointclouds_as_obj.py:61-86 | a frame writes, in point order, the global-frame position and own color of exactly the points that pass the ego-frame distance filter and have a color |
| `FrameExport.FrameWritesSeen` | python-sdk/examples/export_pointclouds_as_obj.py:55-86 | after merging the cameras, a frame writes exactly the points that pass the ego-frame distance filter and that some camera saw, each at its global-frame position with its merged color |
| `FrameExport.FrameLinesNormalized` | python-sdk/examples/export_pointclouds_as_obj.py:80-86 | every line of a frame is a vertex with channels in [0, 1] |
| `FrameExport.CameraSampling` | python-sdk/examples/export_pointclouds_as_obj.py:57-58 | a camera's sampling fits the frame's cloud and has pixel colors, and no failure is a channel error |
| `FrameExport.SampleCamera` | python-sdk/examples/export_pointclouds_as_obj.py:57-58 | the sample's camera token and pointcloud_color_from_image compute `CameraSampling`, the missing key included |
| `FrameExport.CameraSamplings` | python-sdk/examples/export_pointclouds_as_obj.py:56-58 | one sampling per camera channel, each fitting the frame's cloud, with pixel colors, and no channel error |
| `FrameExport.SamplingsInOrder` | python-sdk/examples/export_pointclouds_as_obj.py:31-58 | entry c of the samplings is the sampling of the camera on channel c, so the merge order is the camera-channel order |
| `FrameExport.SamplingsFailEarly` | python-sdk/examples/export_pointclouds_as_obj.py:56-58 | the first failing camera ends the frame with its error |
| `FrameExport.SamplingsFit` | python-sdk/examples/export_pointclouds_as_obj.py:58-59 | every mask has one entry per point of the frame's cloud, so the in-place assignment is well-shaped |
| `FrameExport.FrameColoring` | python-sdk/examples/export_pointclouds_as_obj.py:55-59 | on success one merged entry per point; no failure is a channel error |
| `FrameExport.FrameColoringPixels` | python-sdk/examples/export_pointclouds_as_obj.py:55-59 | every colored entry of the merged buffer is an 8-bit pixel |
| `FrameExport.FrameSpec` | python-sdk/examples/export_pointclouds_as_obj.py:49-86 | no failure of a frame is a channel error |
| `FrameExport.FrameSpecNormalized` | python-sdk/examples/export_pointclouds_as_obj.py:49-86 | every line a successful frame writes is a vertex with channels in [0, 1] |
| `FrameExport.DistanceMask` | python-sdk/examples/export_pointclouds_as_obj.py:68-69 | the keep mask, point by point |
| `FrameExport.EmitLines` | python-sdk/examples/export_pointclouds_as_obj.py:81-86 | the write loop computes `Emit`, skipping each point that has a −1 channel |
| `FrameExport.MergeCameraColors` | python-sdk/examples/export_pointclouds_as_obj.py:55-59 | the sentinel buffer, overwritten in place by each camera in the fixed order, is the merged coloring; the first failing camera ends it |
| `FrameExport.ProcessFrame` | python-sdk/examples/export_pointclouds_as_obj.py:49-86 | one iteration of the loop computes `FrameSpec`, the failures included |
| `SceneExport.StartToken` | python-sdk/examples/export_pointclouds_as_obj.py:36-38 | on success the start token has a sample-data record; no failure is a channel error |
| `SceneExport.Frames` | python-sdk/examples/export_pointclouds_as_obj.py:46-92 | the loop only appends to what was written, and on success it has processed at least one more frame |
| `SceneExport.SceneSpec` | python-sdk/examples/export_pointclouds_as_obj.py:29-92 | an export without a file has failed, and a file starts with the header line |
| `SceneExport.FramesFollowChain` | python-sdk/examples/export_pointclouds_as_obj.py:88-92 | a successful loop walked a complete chain from its start, wrote the frames of that chain, and counted one frame per record |
| `SceneExport.ChainFrames` | python-sdk/examples/export_pointclouds_as_obj.py:88-92 | on a complete chain whose frames all succeed, the loop writes exactly those frames and counts the chain's length |
| `SceneExport.RunFramesFail` | python-sdk/examples/export_pointclouds_as_obj.py:47-92 | along a run of records, the loop stops with the error of the run's first failing frame |
| `SceneExport.DanglingFrames` | python-sdk/examples/export_pointclouds_as_obj.py:86-92 | along a dangling run whose frames all succeed, the loop writes every frame and then fails on the missing record |
| `SceneExport.SceneOnChain` | python-sdk/examples/export_pointclouds_as_obj.py:36-92 | for the complete chain from a scene's first record, the export writes the header and that chain's frames and returns its length, or fails with the error of the first of those frames that fails |
| `SceneExport.DanglingLinkFails` | python-sdk/examples/export_pointclouds_as_obj.py:88-89 | links that run into a token with no record make the export fail rather than stop quietly |
| `SceneExport.DanglingLinkError` | python-sdk/examples/export_pointclouds_as_obj.py:86-92 | along links that dangle, the export writes the header and every frame of the run and then fails with the missing-record error for the dangling token, or with the error of the first frame that fails |
| `SceneExport.FramesNormalized` | python-sdk/examples/export_pointclouds_as_obj.py:80-86 | the loop appends only lines its frames produce |
| `SceneExport.FrameOfNormalized` | python-sdk/examples/export_pointclouds_as_obj.py:80-86 | every frame of the exporter writes normalized vertex lines only |
| `SceneExport.SceneFileShape` | python-sdk/examples/export_pointclouds_as_obj.py:43-86 | the file is the header line followed by vertex lines with channels in [0, 1] |
| `SceneExport.FramesKeepErrors` | python-sdk/examples/export_pointclouds_as_obj.py:33 | no failure inside the loop is a channel error |
| `SceneExport.InvalidChannelExactly` | python-sdk/examples/export_pointclouds_as_obj.py:29-43 | the export fails with the channel error exactly when the channel is not a point-sensor channel, and then it opens no file |
| `SceneExport.ExportScenePointcloud` | python-sdk/examples/export_pointclouds_as_obj.py:13-92 | `export_scene_pointcloud` computes `SceneSpec`: the lines written and the frame count, or the error that stopped it |

## Left out

- File I/O is not modelled.
  - Point clouds and images are maps from file name to content. The join
    with the data root is dropped.
  - The OBJ file is the sequence of its lines.
  - The text format (`.8f` positions, `.4f` colors) is not modelled; a
    vertex line holds exact values.
- The verbose `print`s, the `__main__` loop over all scenes (lines 156–169)
  and the `out_path` parameter are not modelled: they are output only.
- Quaternion-to-matrix conversion (`pyquaternion`) is not part of this
  model. Calibrations and ego poses store rotation matrices.
- `view_points` is not part of this model. The projection is a parameter
  that maps a camera-frame point and the intrinsic matrix to pixel
  coordinates.
- Floating point is not modelled: coordinates, depths and distances are
  exact reals.
  - The square root of the distance filter becomes a comparison of squares.
    For d ≥ 0 this is exactly `min ≤ d ≤ max` (`WithinRangeIsDistance`), so
    `min_dist` need not be non-negative.
  - No round-off of the transform chain is modelled.
- The `int32` cast of a rounded pixel coordinate is not modelled. It cannot
  overflow inside the margin.
- Only the three coordinate rows of the point cloud are modelled. The
  intensity row is carried along by the source but never read here.
- The image is taken to be decoded RGB with 8-bit channels.
- `pointcloud_color_from_image` is called with the module-level `nusc`
  (line 58) rather than `explorer.nusc`, and the camera loop rebinds
  `channel` (line 56). The model passes the one record store everywhere
  and keeps the two channel names apart. The first quirk fails only when
  the function is used outside the script.
- The channel check is a Python `assert`, which `python -O` removes. The
  model always performs it.
- The defaults of `channel` (`LIDAR_TOP`), `min_dist` (3.0) and `max_dist`
  (30.0) are the caller's arguments here.
- `SceneExport.ExportScenePointcloud` requires that no chain of `next` links
  in the whole sample-data table runs in a cycle, not only the chain of the
  exported scene. The source has no such check; it would loop forever on a
  cyclic scene, and it exports a scene whose own chain ends even when other
  chains of the table are cyclic. Neither behaviour is modelled: the model
  takes the record store's invariant that links never form a cycle. In the
  model this is `Records.Acyclic`: from every record the links reach an
  empty link or a token without a record within |table| + 1 visits. Every
  cycle-free table meets it, including one whose only chain passes every
  record and then dangles.
- `SceneExport.SceneSpec` requires the same acyclic `next` links in the
  whole table.
- `SceneExport.Frames` requires that the links from its record end within
  its step bound.
