/** The errors the molecule service throws, one constructor per distinct `Error` it raises. */
module MoleculeErrors {

  datatype Error =
    | InvalidParameters            // 'Invalid parameters': empty name or missing container
    | MaxRetriesReached            // 'Max retries reached': retry called with no attempts
    | NetworkError                 // fetch rejected: connection failure or the 5 s abort timeout
    | MalformedResponse            // response.json() rejected
    | PubChemApiError(statusText: string)  // a non-ok HTTP status from the lookup service
    | NoMoleculeDataFound          // 'No molecule data found': IdentifierList.CID missing or empty
    | No3DStructure                // 'Failed to fetch 3D structure': the structure fetch gave nothing
    | DisplayFailed                // 'Failed to display 3D structure': a viewer call threw
    | LibraryNotLoaded             // '3Dmol.js not loaded'
    | InitTimeout                  // 'Viewer initialization timeout'
    | CreateViewerFailed           // the rendering engine's createViewer threw
    | FallbackImageLoadFailed      // 'Failed to load fallback image'
}
