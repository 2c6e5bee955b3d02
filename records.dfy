/** Records shared by the description classifier and the manifest builder. */
module Records {
  import opened Wrappers

  /**
   * One row of the imaging-availability export. Every cell except the
   * subject identifier may be missing (pandas NaN).
   */
  datatype ImagingRow = ImagingRow(
    subject: string,
    visit: Option<string>,
    group: Option<string>,
    description: Option<string>,
    modality: Option<string>,
    protocol: Option<string>)

  /**
   * The BIDS datatype and suffix keys of the classification
   * (`DATATYPE_ANAT`, `DATATYPE_DWI`, `DATATYPE_FUNC`, `SUFFIX_T1`,
   * `SUFFIX_T2`, `SUFFIX_T2_STAR`, `SUFFIX_FLAIR`), whose values live in a
   * configuration module outside this model and are taken as a parameter.
   */
  datatype DatatypeNames = DatatypeNames(
    anat: string, dwi: string, func: string,
    t1: string, t2: string, t2star: string, flair: string)
  {
    /** `DATATYPES` of the manifest builder: the top-level datatype keys. */
    function Datatypes(): seq<string>
    {
      [anat, dwi, func]
    }
  }
}
