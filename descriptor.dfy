/**
 * The task descriptor that the upload endpoint builds and the worker consumes,
 * and the storage configuration both read from the environment.
 * Absent dictionary keys are `None`; a present key holds a string.
 */
module Descriptor {
  import opened Wrappers
  import opened Json

  /** `file_location`: `{"type": ..., "bucket": ..., "key": ...}`. */
  datatype Location = Location(locType: Option<string>, bucket: Option<string>, key: Option<string>)

  /** One entry of `processing_steps` or `analysis_tasks`: its `type` and its `output_format` parameter. */
  datatype Step = Step(stepType: Option<string>, outputFormat: Option<Json>)

  /** The task payload dictionary. */
  datatype TaskPayload = TaskPayload(
    taskId: Option<string>,
    fileLocation: Option<Location>,
    processingSteps: Option<seq<Step>>,
    analysisTasks: Option<seq<Step>>,
    metadata: Option<map<string, Json>>,
    model: Option<string>)

  /** `STORAGE_CONFIG`: the storage type (default "s3") and the bucket name, if set. */
  datatype StorageConfig = StorageConfig(storageType: string, bucketName: Option<string>)
}
